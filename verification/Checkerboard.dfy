/** Removal of the light checkerboard background that is connected to the border of an image
    (clear_checkerboard in tools/art-atlas/prepare.py). */
module Checkerboard {

  datatype Pixel = Pixel(red: nat, green: nat, blue: nat, alpha: nat)

  datatype Point = Point(x: int, y: int)

  const CLEAR := Pixel(0, 0, 0, 0)

  function Min(p: Pixel): nat {
    var m := if p.red <= p.green then p.red else p.green;
    if m <= p.blue then m else p.blue
  }

  function Max(p: Pixel): nat {
    var m := if p.red >= p.green then p.red else p.green;
    if m >= p.blue then m else p.blue
  }

  predicate LightNeutral(p: Pixel) {
    215 <= Min(p) && Max(p) - Min(p) < 14
  }

  predicate OpaqueLightNeutral(p: Pixel) {
    250 <= p.alpha && LightNeutral(p)
  }

  /** The pixels of an image by position. */
  type Picture = map<Point, Pixel>

  predicate Inside(w: nat, h: nat, p: Point) {
    0 <= p.x < w && 0 <= p.y < h
  }

  predicate OnBorder(w: nat, h: nat, p: Point) {
    Inside(w, h, p) && (p.x == 0 || p.y == 0 || p.x == w - 1 || p.y == h - 1)
  }

  function Neighbours(p: Point): seq<Point> {
    [Point(p.x - 1, p.y), Point(p.x + 1, p.y), Point(p.x, p.y - 1), Point(p.x, p.y + 1)]
  }

  function PictureOf(px: array2<Pixel>): (pic: Picture)
    reads px
  {
    map p: Point | p in AllPoints(px.Length0, px.Length1) :: px[p.x, p.y]
  }

  function AllPoints(w: nat, h: nat): (s: set<Point>)
    ensures forall p :: p in s <==> Inside(w, h, p)
  {
    set x, y | 0 <= x < w && 0 <= y < h :: Point(x, y)
  }

  predicate Light(pic: Picture, p: Point) {
    p in pic && LightNeutral(pic[p])
  }

  /** A walk from the border to its last point, by 4-neighbour steps over light-neutral pixels only. */
  ghost predicate LightPath(w: nat, h: nat, pic: Picture, path: seq<Point>) {
    && path != []
    && OnBorder(w, h, path[0])
    && (forall i :: 0 <= i < |path| ==> Light(pic, path[i]))
    && (forall i :: 0 < i < |path| ==> path[i] in Neighbours(path[i - 1]))
  }

  ghost predicate Background(w: nat, h: nat, pic: Picture, p: Point) {
    exists path :: LightPath(w, h, pic, path) && path[|path| - 1] == p
  }

  /** The image with its background cleared and every other pixel left as it was. */
  ghost function Cleared(w: nat, h: nat, pic: Picture): Picture {
    map p | p in pic :: if Background(w, h, pic, p) then CLEAR else pic[p]
  }

  predicate LightCorners(w: nat, h: nat, pic: Picture)
    requires 0 < w && 0 < h && pic.Keys == AllPoints(w, h)
  {
    && OpaqueLightNeutral(pic[Point(0, 0)]) && OpaqueLightNeutral(pic[Point(w - 1, 0)])
    && OpaqueLightNeutral(pic[Point(0, h - 1)]) && OpaqueLightNeutral(pic[Point(w - 1, h - 1)])
  }

  function BorderPoints(w: nat, h: nat): seq<Point> {
    seq(w, x => Point(x, 0)) + seq(w, x => Point(x, h - 1)) + seq(h, y => Point(0, y)) + seq(h, y => Point(w - 1, y))
  }

  lemma BorderPointsAre(w: nat, h: nat)
    requires 0 < w && 0 < h
    ensures forall p :: p in BorderPoints(w, h) <==> OnBorder(w, h, p)
  {
    var top, bottom := seq(w, x => Point(x, 0)), seq(w, x => Point(x, h - 1));
    var left, right := seq(h, y => Point(0, y)), seq(h, y => Point(w - 1, y));
    assert BorderPoints(w, h) == top + bottom + left + right;
    forall p | OnBorder(w, h, p)
      ensures p in BorderPoints(w, h)
    {
      if p.y == 0 {
        assert top[p.x] == p;
      } else if p.y == h - 1 {
        assert bottom[p.x] == p;
      } else if p.x == 0 {
        assert left[p.y] == p;
      } else {
        assert right[p.y] == p;
      }
    }
  }

  lemma BorderIsBackground(w: nat, h: nat, pic: Picture, p: Point)
    requires OnBorder(w, h, p) && Light(pic, p)
    ensures Background(w, h, pic, p)
  {
    assert LightPath(w, h, pic, [p]);
  }

  lemma BackgroundSpreads(w: nat, h: nat, pic: Picture, p: Point, q: Point)
    requires Background(w, h, pic, p) && q in Neighbours(p) && Light(pic, q)
    ensures Background(w, h, pic, q)
  {
    var path :| LightPath(w, h, pic, path) && path[|path| - 1] == p;
    assert LightPath(w, h, pic, path + [q]);
  }

  /** A set that holds the border and, with every light-neutral pixel, the neighbours of that pixel,
      holds every background pixel. */
  lemma {:induction false} ClosedHoldsBackground(w: nat, h: nat, pic: Picture, seen: set<Point>, path: seq<Point>)
    requires pic.Keys == AllPoints(w, h) && LightPath(w, h, pic, path)
    requires forall p :: OnBorder(w, h, p) ==> p in seen
    requires forall p, q :: p in seen && Light(pic, p) && q in Neighbours(p) && Inside(w, h, q) ==> q in seen
    ensures path[|path| - 1] in seen
    decreases |path|
  {
    var last := |path| - 1;
    if last != 0 {
      var before := path[..last];
      assert LightPath(w, h, pic, before);
      ClosedHoldsBackground(w, h, pic, seen, before);
      assert before[last - 1] == path[last - 1];
      assert Light(pic, path[last]) && path[last] in Neighbours(path[last - 1]);
    }
  }

  /** The points still to be looked at lead from what has been seen: they are border points or
      neighbours of background pixels. */
  ghost predicate Reachable(w: nat, h: nat, pic: Picture, p: Point) {
    OnBorder(w, h, p) || exists q :: Background(w, h, pic, q) && p in Neighbours(q)
  }

  lemma ReachedIsBackground(w: nat, h: nat, pic: Picture, p: Point)
    requires Reachable(w, h, pic, p) && Light(pic, p)
    ensures Background(w, h, pic, p)
  {
    if OnBorder(w, h, p) {
      BorderIsBackground(w, h, pic, p);
    } else {
      var q :| Background(w, h, pic, q) && p in Neighbours(q);
      BackgroundSpreads(w, h, pic, q, p);
    }
  }

  /** Nothing that has to be looked at is forgotten. */
  ghost predicate Closing(w: nat, h: nat, pic: Picture, seen: set<Point>, queue: seq<Point>) {
    && (forall p :: OnBorder(w, h, p) ==> p in seen || p in queue)
    && (forall p, q :: p in seen && Light(pic, p) && q in Neighbours(p) && Inside(w, h, q) ==> q in seen || q in queue)
  }

  /** Nothing is looked at that does not have to be. */
  ghost predicate Sound(w: nat, h: nat, pic: Picture, seen: set<Point>, queue: seq<Point>) {
    && seen <= AllPoints(w, h)
    && (forall p :: p in queue ==> Reachable(w, h, pic, p))
    && (forall p :: p in seen && Light(pic, p) ==> Background(w, h, pic, p))
  }

  function Painted(pic: Picture, seen: set<Point>): Picture {
    map p | p in pic :: if p in seen && Light(pic, p) then CLEAR else pic[p]
  }

  ghost predicate Filling(w: nat, h: nat, pic: Picture, seen: set<Point>, queue: seq<Point>) {
    Closing(w, h, pic, seen, queue) && Sound(w, h, pic, seen, queue)
  }

  lemma SkipKeeps(w: nat, h: nat, pic: Picture, seen: set<Point>, queue: seq<Point>)
    requires queue != [] && (queue[0] in seen || !Inside(w, h, queue[0]))
    requires Filling(w, h, pic, seen, queue)
    ensures Filling(w, h, pic, seen, queue[1..])
  {
    assert forall q :: q in queue <==> q == queue[0] || q in queue[1..];
  }

  lemma SeeKeeps(w: nat, h: nat, pic: Picture, seen: set<Point>, queue: seq<Point>)
    requires pic.Keys == AllPoints(w, h)
    requires queue != [] && Inside(w, h, queue[0])
    requires Filling(w, h, pic, seen, queue)
    ensures var p := queue[0];
            var more := if Light(pic, p) then queue[1..] + Neighbours(p) else queue[1..];
            Filling(w, h, pic, seen + {p}, more)
  {
    var p := queue[0];
    assert p in queue;
    assert forall q :: q in queue <==> q == p || q in queue[1..];
    if Light(pic, p) {
      ReachedIsBackground(w, h, pic, p);
      var more := queue[1..] + Neighbours(p);
      assert forall q :: q in more <==> q in queue[1..] || q in Neighbours(p);
    }
  }

  lemma BackgroundIsSeen(w: nat, h: nat, pic: Picture, seen: set<Point>, p: Point)
    requires pic.Keys == AllPoints(w, h) && Closing(w, h, pic, seen, []) && Background(w, h, pic, p)
    ensures p in seen && Light(pic, p)
  {
    var path :| LightPath(w, h, pic, path) && path[|path| - 1] == p;
    ClosedHoldsBackground(w, h, pic, seen, path);
    assert Light(pic, path[|path| - 1]);
  }

  /** When nothing is left to look at, what has been painted is the background. */
  lemma PaintedIsCleared(w: nat, h: nat, pic: Picture, seen: set<Point>)
    requires pic.Keys == AllPoints(w, h)
    requires Filling(w, h, pic, seen, [])
    ensures Painted(pic, seen) == Cleared(w, h, pic)
  {
    forall p | p in pic
      ensures p in seen && Light(pic, p) <==> Background(w, h, pic, p)
    {
      if Background(w, h, pic, p) {
        BackgroundIsSeen(w, h, pic, seen, p);
      }
    }
  }

  lemma PaintedNext(pic: Picture, seen: set<Point>, p: Point)
    requires p in pic
    ensures Painted(pic, seen + {p}) == if Light(pic, p) then Painted(pic, seen)[p := CLEAR] else Painted(pic, seen)
    ensures p !in seen ==> Painted(pic, seen)[p] == pic[p]
  {
  }

  /** Looks at a point for the first time and clears it when it is light. */
  method Visit(px: array2<Pixel>, p: Point, ghost before: Picture, ghost seen: set<Point>) returns (light: bool)
    requires Inside(px.Length0, px.Length1, p) && p !in seen && p in before && PictureOf(px) == Painted(before, seen)
    modifies px
    ensures light == Light(before, p) && PictureOf(px) == Painted(before, seen + {p})
  {
    PaintedNext(before, seen, p);
    assert PictureOf(px)[p] == px[p.x, p.y];
    light := LightNeutral(px[p.x, p.y]);
    if light {
      Paint(px, p);
    }
  }

  /** The flood from the border inwards. */
  method Flood(px: array2<Pixel>)
    requires 0 < px.Length0 && 0 < px.Length1
    modifies px
    ensures PictureOf(px) == Cleared(px.Length0, px.Length1, old(PictureOf(px)))
  {
    var w, h := px.Length0, px.Length1;
    ghost var before := PictureOf(px);
    var seen: set<Point> := {};
    var queue := BorderPoints(w, h);
    BorderPointsAre(w, h);
    assert PictureOf(px) == Painted(before, seen);
    while queue != []
      invariant Filling(w, h, before, seen, queue)
      invariant PictureOf(px) == Painted(before, seen)
      decreases AllPoints(w, h) - seen, |queue|
    {
      var p := queue[0];
      if p in seen || !Inside(w, h, p) {
        SkipKeeps(w, h, before, seen, queue);
        queue := queue[1..];
        continue;
      }
      SeeKeeps(w, h, before, seen, queue);
      var light := Visit(px, p, before, seen);
      queue, seen := queue[1..], seen + {p};
      if light {
        queue := queue + Neighbours(p);
      }
    }
    PaintedIsCleared(w, h, before, seen);
  }

  /** With four opaque light corners exactly the light pixels joined to the border are cleared; otherwise the
      image stays as it is. */
  method ClearCheckerboard(px: array2<Pixel>)
    requires 0 < px.Length0 && 0 < px.Length1
    modifies px
    ensures var before := old(PictureOf(px));
            PictureOf(px) == if LightCorners(px.Length0, px.Length1, before)
                then Cleared(px.Length0, px.Length1, before) else before
  {
    var w, h := px.Length0, px.Length1;
    if OpaqueLightNeutral(px[0, 0]) && OpaqueLightNeutral(px[w - 1, 0])
       && OpaqueLightNeutral(px[0, h - 1]) && OpaqueLightNeutral(px[w - 1, h - 1]) {
      Flood(px);
    }
  }

  method Paint(px: array2<Pixel>, p: Point)
    requires Inside(px.Length0, px.Length1, p)
    modifies px
    ensures PictureOf(px) == old(PictureOf(px))[p := CLEAR]
  {
    px[p.x, p.y] := CLEAR;
  }
}
