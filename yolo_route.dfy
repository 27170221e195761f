/** yolo_graph.py, parse_and_layout, stage 3: one link per edge whose two
    ends are placed, routed by the lanes and columns of its ends. */
module YoloRoute {
  import opened SvgShapes
  import opened YoloParse
  import opened YoloLayout

  /** `abs(a - b)`. */
  function Dist(a: int, b: int): nat {
    if a >= b then a - b else b - a
  }

  /** How one edge is drawn: routing style, anchor points and dash. */
  datatype Route = Route(routing: Routing, start: Point, end: Point, dashed: bool)

  /** Both ends are in the same neck column. */
  predicate SameNeckColumn(src: Placed, dst: Placed) {
    src.lane == Neck && dst.lane == Neck && src.neckCol == dst.neckCol
  }

  /** The route of the edge from the placed source `s` into layer `l`, placed
      at `dst`. The dash is decided by the layer's lane and index distance;
      the routing by the first rule that applies: consecutive backbone layers
      go straight down, backbone into neck is a Manhattan curve, inside one
      neck column it goes straight down between neighbours and detours on the
      right otherwise, and a link that goes back to the left leaves the
      source by its left side. */
  function RouteOf(l: Layer, dst: Placed, s: int, src: Placed): (r: Route)
    ensures r.routing == VerticalStraight <==>
              Dist(l.idx, s) == 1 && ((l.lane == Backbone && src.lane == Backbone) || SameNeckColumn(src, dst))
    ensures r.routing == DetourRight <==> Dist(l.idx, s) != 1 && SameNeckColumn(src, dst)
    ensures r.routing == Manhattan <==> l.lane != Backbone && src.lane == Backbone && dst.lane == Neck
    ensures r.routing == VerticalStraight ==> r.start == Bottom(src.rect) && r.end == Top(dst.rect)
    ensures r.routing == DetourRight ==> r.start == Right(src.rect) && r.end == Right(dst.rect)
    ensures r.routing == Manhattan ==> r.start == Right(src.rect) && r.end == Left(dst.rect)
    ensures r.routing == Standard && dst.rect.x < src.rect.x && !(l.lane == Backbone && src.lane == Backbone) ==>
              r.start == Left(src.rect) && r.end == Right(dst.rect)
    ensures r.routing == Standard && (src.rect.x <= dst.rect.x || (l.lane == Backbone && src.lane == Backbone)) ==>
              r.start == Right(src.rect) && r.end == Left(dst.rect)
    ensures r.dashed <==> l.lane != src.lane || Dist(l.idx, s) > 1
  {
    var d := Dist(l.idx, s);
    var dashed := l.lane != src.lane || d > 1;
    if l.lane == Backbone && src.lane == Backbone then
      if d == 1 then Route(VerticalStraight, Bottom(src.rect), Top(dst.rect), false)
      else Route(Standard, Right(src.rect), Left(dst.rect), dashed)
    else if src.lane == Backbone && dst.lane == Neck then
      Route(Manhattan, Right(src.rect), Left(dst.rect), dashed)
    else if SameNeckColumn(src, dst) then
      if d == 1 then Route(VerticalStraight, Bottom(src.rect), Top(dst.rect), dashed)
      else Route(DetourRight, Right(src.rect), Right(dst.rect), dashed)
    else if dst.rect.x < src.rect.x then
      Route(Standard, Left(src.rect), Right(dst.rect), dashed)
    else
      Route(Standard, Right(src.rect), Left(dst.rect), dashed)
  }

  /** Every link starts on the outline of its source box and ends on the
      outline of its target box, and a link drawn straight down joins two
      vertically aligned boxes with a vertical segment. */
  lemma RouteOnBoxes(l: Layer, dst: Placed, s: int, src: Placed)
    requires src.rect.w >= 0.0 && src.rect.h >= 0.0 && dst.rect.w >= 0.0 && dst.rect.h >= 0.0
    ensures OnOutline(RouteOf(l, dst, s, src).start, src.rect)
    ensures OnOutline(RouteOf(l, dst, s, src).end, dst.rect)
    ensures RouteOf(l, dst, s, src).routing == VerticalStraight && src.rect.x == dst.rect.x && src.rect.w == dst.rect.w ==>
              RouteOf(l, dst, s, src).start.x == RouteOf(l, dst, s, src).end.x
  {
    AnchorsOnOutline(src.rect);
    AnchorsOnOutline(dst.rect);
  }

  /** Links between neighbours of one lane are solid: consecutive backbone
      layers, and consecutive layers of one neck column. */
  lemma NeighbourLinksSolid(l: Layer, dst: Placed, s: int, src: Placed)
    requires dst.lane == l.lane && Dist(l.idx, s) == 1
    requires (l.lane == Backbone && src.lane == Backbone) || SameNeckColumn(src, dst)
    ensures RouteOf(l, dst, s, src).routing == VerticalStraight && !RouteOf(l, dst, s, src).dashed
  {
  }

  /** The link element of the edge from `s` into `l`. */
  function LinkOf(l: Layer, dst: Placed, s: int, src: Placed): Element {
    var r := RouteOf(l, dst, s, src);
    Link(LinkCurve(r.start, r.end, r.routing), r.dashed)
  }

  /** The links into the placed layer `l` from the sources in `from` that are
      placed, in `from` order. */
  function LinksInto(l: Layer, from: seq<int>, coords: Coords): seq<Element>
    requires l.idx in coords
    decreases |from|
  {
    if from == [] then []
    else
      var n := |from| - 1;
      LinksInto(l, from[..n], coords)
        + (if from[n] in coords then [LinkOf(l, coords[l.idx], from[n], coords[from[n]])] else [])
  }

  /** The links of all placed layers, in layer order. */
  function Links(layers: seq<Layer>, coords: Coords): seq<Element>
    decreases |layers|
  {
    if layers == [] then []
    else
      var n := |layers| - 1;
      Links(layers[..n], coords) + (if layers[n].idx in coords then LinksInto(layers[n], layers[n].from, coords) else [])
  }

  /** The `j`-th source of the `i`-th layer is an edge with both ends placed. */
  predicate Drawn(layers: seq<Layer>, coords: Coords, i: int, j: int) {
    && 0 <= i < |layers| && 0 <= j < |layers[i].from|
    && layers[i].idx in coords && layers[i].from[j] in coords
  }

  /** The link of that edge. */
  function EdgeLink(layers: seq<Layer>, coords: Coords, i: int, j: int): Element
    requires Drawn(layers, coords, i, j)
  {
    var l := layers[i];
    LinkOf(l, coords[l.idx], l.from[j], coords[l.from[j]])
  }

  lemma {:induction false} LinksIntoSound(l: Layer, from: seq<int>, coords: Coords)
    requires l.idx in coords
    ensures forall e :: e in LinksInto(l, from, coords) ==>
              exists j :: 0 <= j < |from| && from[j] in coords && e == LinkOf(l, coords[l.idx], from[j], coords[from[j]])
    decreases |from|
  {
    if from != [] {
      var n := |from| - 1;
      LinksIntoSound(l, from[..n], coords);
      forall e | e in LinksInto(l, from, coords)
        ensures exists j :: 0 <= j < |from| && from[j] in coords && e == LinkOf(l, coords[l.idx], from[j], coords[from[j]])
      {
        if e in LinksInto(l, from[..n], coords) {
          var j :| 0 <= j < n && from[..n][j] in coords && e == LinkOf(l, coords[l.idx], from[..n][j], coords[from[..n][j]]);
          assert from[..n][j] == from[j];
        } else {
          assert from[n] in coords && e == LinkOf(l, coords[l.idx], from[n], coords[from[n]]);
        }
      }
    }
  }

  lemma {:induction false} LinksIntoComplete(l: Layer, from: seq<int>, coords: Coords)
    requires l.idx in coords
    ensures forall j :: 0 <= j < |from| && from[j] in coords ==>
              LinkOf(l, coords[l.idx], from[j], coords[from[j]]) in LinksInto(l, from, coords)
    decreases |from|
  {
    if from != [] {
      var n := |from| - 1;
      LinksIntoComplete(l, from[..n], coords);
      forall j | 0 <= j < n && from[j] in coords
        ensures LinkOf(l, coords[l.idx], from[j], coords[from[j]]) in LinksInto(l, from, coords)
      {
        assert from[..n][j] == from[j];
      }
    }
  }

  /** Every link drawn is the link of an edge whose two ends are placed. */
  lemma {:induction false} LinksSound(layers: seq<Layer>, coords: Coords)
    ensures forall e :: e in Links(layers, coords) ==>
              exists i, j :: Drawn(layers, coords, i, j) && e == EdgeLink(layers, coords, i, j)
    decreases |layers|
  {
    if layers != [] {
      var n := |layers| - 1;
      LinksSound(layers[..n], coords);
      forall e | e in Links(layers, coords)
        ensures exists i, j :: Drawn(layers, coords, i, j) && e == EdgeLink(layers, coords, i, j)
      {
        if e in Links(layers[..n], coords) {
          var i, j :| Drawn(layers[..n], coords, i, j) && e == EdgeLink(layers[..n], coords, i, j);
          assert layers[..n][i] == layers[i];
          assert Drawn(layers, coords, i, j);
        } else {
          var l := layers[n];
          LinksIntoSound(l, l.from, coords);
          var j :| 0 <= j < |l.from| && l.from[j] in coords && e == LinkOf(l, coords[l.idx], l.from[j], coords[l.from[j]]);
          assert Drawn(layers, coords, n, j);
        }
      }
    }
  }

  /** Every edge whose two ends are placed is drawn. */
  lemma {:induction false} LinksComplete(layers: seq<Layer>, coords: Coords)
    ensures forall i, j :: Drawn(layers, coords, i, j) ==> EdgeLink(layers, coords, i, j) in Links(layers, coords)
    decreases |layers|
  {
    if layers != [] {
      var n := |layers| - 1;
      LinksComplete(layers[..n], coords);
      var last := if layers[n].idx in coords then LinksInto(layers[n], layers[n].from, coords) else [];
      assert Links(layers, coords) == Links(layers[..n], coords) + last;
      forall i, j | Drawn(layers, coords, i, j)
        ensures EdgeLink(layers, coords, i, j) in Links(layers, coords)
      {
        var l := layers[i];
        var e := LinkOf(l, coords[l.idx], l.from[j], coords[l.from[j]]);
        assert EdgeLink(layers, coords, i, j) == e;
        if i < n {
          assert layers[..n][i] == l;
          assert Drawn(layers[..n], coords, i, j);
          assert EdgeLink(layers[..n], coords, i, j) == e;
          assert e in Links(layers[..n], coords);
        } else {
          LinksIntoComplete(l, l.from, coords);
          assert e in last;
        }
      }
    }
  }

  /** Stage 3: for each placed layer, one link per placed source. */
  method RouteEdges(svg: SvgBuilder, layers: seq<Layer>, coords: Coords)
    modifies svg`elements
    ensures svg.elements == old(svg.elements) + Links(layers, coords)
  {
    var i := 0;
    while i < |layers|
      invariant 0 <= i <= |layers|
      invariant svg.elements == old(svg.elements) + Links(layers[..i], coords)
    {
      var l := layers[i];
      assert layers[..i + 1][..i] == layers[..i];
      if l.idx in coords {
        var dst := coords[l.idx];
        var j := 0;
        while j < |l.from|
          invariant 0 <= j <= |l.from|
          invariant svg.elements == old(svg.elements) + Links(layers[..i], coords) + LinksInto(l, l.from[..j], coords)
        {
          var s := l.from[j];
          assert l.from[..j + 1][..j] == l.from[..j];
          if s in coords {
            var r := RouteOf(l, dst, s, coords[s]);
            svg.AddLink(r.start, r.end, r.dashed, r.routing);
          }
          j := j + 1;
        }
        assert l.from[..j] == l.from;
      }
      i := i + 1;
    }
    assert layers[..i] == layers;
  }
}
