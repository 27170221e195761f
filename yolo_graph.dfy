/** yolo_graph.py, parse_and_layout: parse, place the three lanes, route the
    edges and frame the drawing with lane backgrounds. */
module YoloGraph {
  import opened SvgShapes
  import opened YoloParse
  import opened YoloLayout
  import opened YoloRoute

  /** The colours the lane backgrounds are painted with. */
  predicate HasLaneColors(g: Config) {
    "bg_backbone" in g.colors && "bg_neck" in g.colors && "bg_head" in g.colors
  }

  /** Stages 2 and 3 of `parse_and_layout` over the parsed layers: the
      placed nodes, where the head lane starts, the bottom of the backbone
      column, and the boxes and links in drawing order. */
  datatype Placement = Placement(coords: Coords, headStartX: real, maxBbY: real, body: seq<Element>)

  function Place(layers: seq<Layer>, g: Config): Placement {
    var bb := OfLane(layers, Backbone);
    var maxBbY := MaxBackboneY(|bb|, g);
    var cols := NeckColumns(OfLane(layers, Neck), maxBbY, g.neckStep);
    var c1 := NeckMap(ColumnMap(map[], bb, BackboneX(g), g.bbStep, Backbone, NoNeckColumn, g), cols, 3, g);
    var headStartX := NeckWidth(cols, 3, g);
    var head := OfLane(layers, Head);
    var h := HeadRun(head, c1, HeadX(headStartX, g), g);
    Placement(h.coords, headStartX, maxBbY,
      StackElements(bb, BackboneX(g), g.bbStep, g) + NeckElements(cols, 3, g)
      + HeadElements(head, h.ys, HeadX(headStartX, g), g) + Links(layers, h.coords))
  }

  /** What `parse_and_layout` writes for the parsed layers. The lane
      backgrounds are added last but each goes to the front, so the
      backgrounds come in reverse order before the body and the titles in
      order after it. */
  datatype Drawing = Drawing(elements: seq<Element>, width: real, height: real)

  /** The three lanes around the placed body. */
  function Frame(p: Placement, g: Config): Drawing
    requires HasLaneColors(g)
  {
    var height := p.maxBbY + BottomMargin;
    var neckW := p.headStartX - g.laneWidthBb;
    Drawing(
      [LaneBackground(p.headStartX, g.laneWidthHead, height, g.colors["bg_head"]),
       LaneBackground(g.laneWidthBb, neckW, height, g.colors["bg_neck"]),
       LaneBackground(0.0, g.laneWidthBb, height, g.colors["bg_backbone"])]
      + p.body
      + [LaneTitle(0.0 + g.laneWidthBb / 2.0, "Backbone"),
         LaneTitle(g.laneWidthBb + neckW / 2.0, "Neck"),
         LaneTitle(p.headStartX + g.laneWidthHead / 2.0, "Head")],
      p.headStartX + g.laneWidthHead, height)
  }

  /** Parsed layers are numbered by their position. */
  lemma ParsedIncreasing(layers: seq<Layer>, specs: seq<LayerSpec>, backboneLen: nat, colors: map<string, string>)
    requires "fill_node" in colors && "fill_concat" in colors && |layers| == |specs|
    requires forall i :: 0 <= i < |specs| ==> Parsed(layers[i], specs, i, backboneLen, colors)
    ensures IdxIncreasing(layers)
  {
    assert forall i :: 0 <= i < |layers| ==> layers[i].idx == i;
  }

  /** Stages 2 and 3 on a fresh builder: the three lanes, then the links. */
  method PlaceAll(svg: SvgBuilder, layers: seq<Layer>) returns (headStartX: real, maxBbY: real, ghost p: Placement)
    requires svg.elements == []
    modifies svg`elements
    ensures p == Place(layers, svg.config)
    ensures svg.elements == p.body && headStartX == p.headStartX && maxBbY == p.maxBbY
  {
    var g := svg.config;
    var coords;
    var backboneItems := OfLane(layers, Backbone);
    coords, maxBbY := PlaceBackbone(svg, backboneItems);
    assert svg.elements == StackElements(backboneItems, BackboneX(g), g.bbStep, g);
    var neckItems := OfLane(layers, Neck);
    var cols := AssignNeckColumns(neckItems, maxBbY, g.neckStep);
    NeckColumnsOf(cols, neckItems, maxBbY, g.neckStep);
    coords, headStartX := PlaceNeck(svg, cols, coords);
    coords := PlaceHead(svg, OfLane(layers, Head), coords, headStartX);
    RouteEdges(svg, layers, coords);
    p := Place(layers, g);
  }

  /** The elements of the drawing: the three lanes added around the body in
      backbone, neck, head order, each background to the front and each
      title to the back. */
  lemma FrameIs(p: Placement, g: Config, e1: seq<Element>, e2: seq<Element>, e: seq<Element>)
    requires HasLaneColors(g)
    requires e1 == [LaneBackground(0.0, g.laneWidthBb, p.maxBbY + BottomMargin, g.colors["bg_backbone"])] + p.body
                   + [LaneTitle(0.0 + g.laneWidthBb / 2.0, "Backbone")]
    requires e2 == [LaneBackground(g.laneWidthBb, p.headStartX - g.laneWidthBb, p.maxBbY + BottomMargin, g.colors["bg_neck"])] + e1
                   + [LaneTitle(g.laneWidthBb + (p.headStartX - g.laneWidthBb) / 2.0, "Neck")]
    requires e == [LaneBackground(p.headStartX, g.laneWidthHead, p.maxBbY + BottomMargin, g.colors["bg_head"])] + e2
                  + [LaneTitle(p.headStartX + g.laneWidthHead / 2.0, "Head")]
    ensures e == Frame(p, g).elements
  {
  }

  /** Stage 4: the three lane backgrounds around the placed body. */
  method AddLanes(svg: SvgBuilder, headStartX: real, maxBbY: real, ghost p: Placement)
    requires HasLaneColors(svg.config)
    requires svg.elements == p.body && headStartX == p.headStartX && maxBbY == p.maxBbY
    modifies svg`elements, svg`width, svg`height
    ensures svg.elements == Frame(p, svg.config).elements
    ensures svg.width == Frame(p, svg.config).width && svg.height == Frame(p, svg.config).height
  {
    var g := svg.config;
    var height := maxBbY + BottomMargin;
    svg.width := headStartX + g.laneWidthHead;
    svg.height := height;
    svg.AddBgLane(0.0, g.laneWidthBb, height, "Backbone", g.colors["bg_backbone"]);
    ghost var e1 := svg.elements;
    svg.AddBgLane(g.laneWidthBb, headStartX - g.laneWidthBb, height, "Neck", g.colors["bg_neck"]);
    ghost var e2 := svg.elements;
    svg.AddBgLane(headStartX, g.laneWidthHead, height, "Head", g.colors["bg_head"]);
    FrameIs(p, g, e1, e2, svg.elements);
  }

  /** Stages 2 to 4 on a new builder: the placement of the layers, framed
      by the three lanes. */
  method Draw(layers: seq<Layer>, config: Config) returns (svg: SvgBuilder, ghost p: Placement)
    requires HasLaneColors(config)
    ensures fresh(svg) && svg.config == config && p == Place(layers, config)
    ensures svg.elements == Frame(p, config).elements
    ensures svg.width == Frame(p, config).width && svg.height == Frame(p, config).height
  {
    svg := new SvgBuilder(config);
    var headStartX, maxBbY;
    headStartX, maxBbY, p := PlaceAll(svg, layers);
    AddLanes(svg, headStartX, maxBbY, p);
  }

  /** `parse_and_layout` up to the file it writes: the builder holds the
      placement of the parsed layers, framed by the three lanes. */
  method ParseAndLayout(specs: seq<LayerSpec>, backboneLen: nat, config: Config)
    returns (svg: SvgBuilder, layers: seq<Layer>, ghost p: Placement)
    requires "fill_node" in config.colors && "fill_concat" in config.colors && HasLaneColors(config)
    ensures fresh(svg) && svg.config == config
    ensures |layers| == |specs|
    ensures forall i :: 0 <= i < |specs| ==> Parsed(layers[i], specs, i, backboneLen, config.colors)
    ensures p == Place(layers, config)
    ensures svg.elements == Frame(p, config).elements
    ensures svg.width == Frame(p, config).width && svg.height == Frame(p, config).height
  {
    layers := Parse(specs, backboneLen, config.colors);
    svg, p := Draw(layers, config);
  }

  /** Every layer gets a box: the placed nodes are exactly the layers, in
      whichever lane they are. */
  lemma AllLayersPlaced(layers: seq<Layer>, g: Config)
    ensures Place(layers, g).coords.Keys == IdxSet(layers)
  {
    var bb, neck, head := OfLane(layers, Backbone), OfLane(layers, Neck), OfLane(layers, Head);
    var maxBbY := MaxBackboneY(|bb|, g);
    var cols := NeckColumns(neck, maxBbY, g.neckStep);
    var c0 := ColumnMap(map[], bb, BackboneX(g), g.bbStep, Backbone, NoNeckColumn, g);
    var c1 := NeckMap(c0, cols, 3, g);
    var x := HeadX(NeckWidth(cols, 3, g), g);
    assert Place(layers, g).coords == HeadRun(head, c1, x, g).coords;
    ColumnMapDomain(map[], bb, BackboneX(g), g.bbStep, Backbone, NoNeckColumn, g);
    assert c0.Keys == IdxSet(bb);
    NeckMapDomain(c0, cols, g);
    NeckColumnsCover(neck, maxBbY, g.neckStep);
    assert c1.Keys == IdxSet(bb) + IdxSet(neck);
    HeadRunDomain(head, c1, x, g);
    LanesCoverIdx(layers);
  }

  /** With distinct indices, no node is in two lanes. */
  lemma LanesDisjoint(layers: seq<Layer>, a: Lane, b: Lane)
    requires IdxIncreasing(layers) && a != b
    ensures IdxSet(OfLane(layers, a)) !! IdxSet(OfLane(layers, b))
  {
    forall l, m | l in OfLane(layers, a) && m in OfLane(layers, b) ensures l.idx != m.idx {
      var s :| 0 <= s < |layers| && layers[s] == l;
      var t :| 0 <= t < |layers| && layers[t] == m;
    }
  }

  /** The later stages leave the backbone alone: after the head lane is
      placed, the `k`-th backbone node still has the box of the `k`-th
      backbone slot. */
  lemma BackboneKept(layers: seq<Layer>, g: Config)
    requires IdxIncreasing(layers)
    ensures var bb := OfLane(layers, Backbone);
            forall k :: 0 <= k < |bb| ==>
              (bb[k].idx in Place(layers, g).coords &&
               Place(layers, g).coords[bb[k].idx] == Placed(StackRect(BackboneX(g), k, g.bbStep, g), Backbone, NoNeckColumn))
  {
    var bb, neck, head := OfLane(layers, Backbone), OfLane(layers, Neck), OfLane(layers, Head);
    var cols := NeckColumns(neck, MaxBackboneY(|bb|, g), g.neckStep);
    var c0 := ColumnMap(map[], bb, BackboneX(g), g.bbStep, Backbone, NoNeckColumn, g);
    var c1 := NeckMap(c0, cols, 3, g);
    var x := HeadX(NeckWidth(cols, 3, g), g);
    assert Place(layers, g).coords == HeadRun(head, c1, x, g).coords;
    BackbonePlaces(bb, g);
    NeckMapDomain(c0, cols, g);
    NeckColumnsCover(neck, MaxBackboneY(|bb|, g), g.neckStep);
    HeadRunDomain(head, c1, x, g);
    LanesDisjoint(layers, Backbone, Neck);
    LanesDisjoint(layers, Backbone, Head);
    forall k | 0 <= k < |bb|
      ensures bb[k].idx in HeadRun(head, c1, x, g).coords
      ensures HeadRun(head, c1, x, g).coords[bb[k].idx] == Placed(StackRect(BackboneX(g), k, g.bbStep, g), Backbone, NoNeckColumn)
    {
      assert bb[k] in bb;
      assert bb[k].idx in IdxSet(bb);
    }
  }

  /** The head stage leaves the neck alone: after it, the `k`-th node of
      neck sub-column `c` still has the box of its slot in that sub-column. */
  lemma NeckKept(layers: seq<Layer>, g: Config)
    requires IdxIncreasing(layers)
    ensures var cols := NeckColumns(OfLane(layers, Neck), MaxBackboneY(|OfLane(layers, Backbone)|, g), g.neckStep);
            forall c, k :: 0 <= c < 3 && 0 <= k < |cols[c]| ==>
              (cols[c][k].idx in Place(layers, g).coords &&
               Place(layers, g).coords[cols[c][k].idx] == Placed(StackRect(NeckX(c, g), k, g.neckStep, g), Neck, c))
  {
    var bb, neck, head := OfLane(layers, Backbone), OfLane(layers, Neck), OfLane(layers, Head);
    var cols := NeckColumns(neck, MaxBackboneY(|bb|, g), g.neckStep);
    var c0 := ColumnMap(map[], bb, BackboneX(g), g.bbStep, Backbone, NoNeckColumn, g);
    var x := HeadX(NeckWidth(cols, 3, g), g);
    assert Place(layers, g).coords == HeadRun(head, NeckMap(c0, cols, 3, g), x, g).coords;
    NeckColumnsWellFormed(neck, MaxBackboneY(|bb|, g), g.neckStep);
    LanesDisjoint(layers, Neck, Head);
    NeckThenHead(c0, cols, head, x, g);
  }

  /** The sub-columns of an ordered neck are ordered, pairwise disjoint,
      and hold only neck nodes. */
  lemma NeckColumnsWellFormed(neck: seq<Layer>, limit: real, step: real)
    requires IdxIncreasing(neck)
    ensures forall c :: 0 <= c < 3 ==> IdxIncreasing(NeckColumns(neck, limit, step)[c])
    ensures forall c :: 0 <= c < 3 ==> IdxSet(NeckColumns(neck, limit, step)[c]) <= IdxSet(neck)
    ensures forall c, d :: 0 <= c < d < 3 ==> IdxSet(NeckColumns(neck, limit, step)[c]) !! IdxSet(NeckColumns(neck, limit, step)[d])
  {
    var assign := NeckRun(|neck|, limit, step).cols;
    var cols := NeckColumns(neck, limit, step);
    forall c | 0 <= c < 3
      ensures IdxIncreasing(cols[c]) && IdxSet(cols[c]) <= IdxSet(neck)
    {
      assert cols[c] == Pick(neck, assign, c);
      PickIncreasing(neck, assign, c);
      PickWithin(neck, assign, c);
    }
    forall c, d | 0 <= c < d < 3
      ensures IdxSet(cols[c]) !! IdxSet(cols[d])
    {
      assert cols[c] == Pick(neck, assign, c) && cols[d] == Pick(neck, assign, d);
      PickDisjoint(neck, assign, c, d);
    }
  }

  /** Neck boxes placed before a head run that holds none of them survive it. */
  lemma NeckThenHead(coords0: Coords, cols: seq<seq<Layer>>, head: seq<Layer>, x: real, g: Config)
    requires |cols| == 3
    requires forall c :: 0 <= c < 3 ==> IdxIncreasing(cols[c])
    requires forall c, d :: 0 <= c < d < 3 ==> IdxSet(cols[c]) !! IdxSet(cols[d])
    requires forall c :: 0 <= c < 3 ==> IdxSet(cols[c]) !! IdxSet(head)
    ensures forall c, k :: 0 <= c < 3 && 0 <= k < |cols[c]| ==>
              (cols[c][k].idx in HeadRun(head, NeckMap(coords0, cols, 3, g), x, g).coords &&
               HeadRun(head, NeckMap(coords0, cols, 3, g), x, g).coords[cols[c][k].idx]
                 == Placed(StackRect(NeckX(c, g), k, g.neckStep, g), Neck, c))
  {
    var c1 := NeckMap(coords0, cols, 3, g);
    NeckMapPlaces(coords0, cols, g);
    HeadRunDomain(head, c1, x, g);
    forall c, k | 0 <= c < 3 && 0 <= k < |cols[c]|
      ensures cols[c][k].idx !in IdxSet(head)
    {
      assert cols[c][k] in cols[c];
      assert cols[c][k].idx in IdxSet(cols[c]);
    }
  }

  /** After all stages the `k`-th head node has the box at its head height,
      centred in the head lane that starts where the neck ends. */
  lemma HeadPlaced(layers: seq<Layer>, g: Config)
    requires IdxIncreasing(layers)
    ensures var bb := OfLane(layers, Backbone);
            var cols := NeckColumns(OfLane(layers, Neck), MaxBackboneY(|bb|, g), g.neckStep);
            var c1 := NeckMap(ColumnMap(map[], bb, BackboneX(g), g.bbStep, Backbone, NoNeckColumn, g), cols, 3, g);
            var head := OfLane(layers, Head);
            var x := HeadX(Place(layers, g).headStartX, g);
            forall k :: 0 <= k < |head| ==>
              (head[k].idx in Place(layers, g).coords &&
               Place(layers, g).coords[head[k].idx] == Placed(Rect(x, HeadRun(head, c1, x, g).ys[k], g.nodeW, g.nodeH), Head, HeadColumnId))
  {
    var bb, head := OfLane(layers, Backbone), OfLane(layers, Head);
    var cols := NeckColumns(OfLane(layers, Neck), MaxBackboneY(|bb|, g), g.neckStep);
    var c1 := NeckMap(ColumnMap(map[], bb, BackboneX(g), g.bbStep, Backbone, NoNeckColumn, g), cols, 3, g);
    HeadMapPlaces(head, c1, HeadX(NeckWidth(cols, 3, g), g), g);
  }

  /** The three lanes hold between them exactly the indices of the layers. */
  lemma LanesCoverIdx(layers: seq<Layer>)
    ensures IdxSet(OfLane(layers, Backbone)) + IdxSet(OfLane(layers, Neck)) + IdxSet(OfLane(layers, Head)) == IdxSet(layers)
  {
    var bb, neck, head := OfLane(layers, Backbone), OfLane(layers, Neck), OfLane(layers, Head);
    forall i | i in IdxSet(layers) ensures i in IdxSet(bb) + IdxSet(neck) + IdxSet(head) {
      var l :| l in layers && l.idx == i;
      assert l in bb || l in neck || l in head;
    }
  }

  /** The head lane starts at the right end of the last neck sub-column in
      use, the one the last neck layer went to. */
  lemma HeadLaneAfterNeck(layers: seq<Layer>, g: Config)
    requires OfLane(layers, Neck) != []
    ensures var neck := OfLane(layers, Neck);
            var run := NeckRun(|neck|, MaxBackboneY(|OfLane(layers, Backbone)|, g), g.neckStep);
            Place(layers, g).headStartX == NeckBase(run.col, g) + g.laneWidthNeckCol
  {
    NeckWidthFollowsLastColumn(OfLane(layers, Neck), MaxBackboneY(|OfLane(layers, Backbone)|, g), g.neckStep, g);
  }

  /** Without neck layers the head lane starts at 0, on top of the backbone
      lane, and the neck lane background gets the negative width
      `-lane_width_bb`. */
  lemma EmptyNeckOverlapsBackbone(layers: seq<Layer>, g: Config)
    requires HasLaneColors(g) && OfLane(layers, Neck) == []
    ensures Place(layers, g).headStartX == 0.0
    ensures Frame(Place(layers, g), g).elements[1]
              == LaneBackground(g.laneWidthBb, -g.laneWidthBb, Place(layers, g).maxBbY + BottomMargin, g.colors["bg_neck"])
    ensures Frame(Place(layers, g), g).width == g.laneWidthHead
  {
    HeadStartWithoutNeck(layers, g);
    FrameWithoutNeck(Place(layers, g), g);
  }

  /** Without neck layers the head lane starts at 0. */
  lemma HeadStartWithoutNeck(layers: seq<Layer>, g: Config)
    requires OfLane(layers, Neck) == []
    ensures Place(layers, g).headStartX == 0.0
  {
    NeckWidthEmpty(MaxBackboneY(|OfLane(layers, Backbone)|, g), g.neckStep, g);
  }

  /** With the head lane at 0, the neck lane background is the second element
      of the frame and has width `-lane_width_bb`, and the canvas is one head
      lane wide. */
  lemma FrameWithoutNeck(p: Placement, g: Config)
    requires HasLaneColors(g) && p.headStartX == 0.0
    ensures Frame(p, g).elements[1]
              == LaneBackground(g.laneWidthBb, -g.laneWidthBb, p.maxBbY + BottomMargin, g.colors["bg_neck"])
    ensures Frame(p, g).width == g.laneWidthHead
  {
  }

  /** Every edge between two layers is drawn, and every link drawn is the
      link of such an edge. */
  lemma EdgesDrawn(layers: seq<Layer>, g: Config)
    ensures forall i, j :: 0 <= i < |layers| && 0 <= j < |layers[i].from| && layers[i].from[j] in IdxSet(layers) ==>
              Drawn(layers, Place(layers, g).coords, i, j)
              && EdgeLink(layers, Place(layers, g).coords, i, j) in Place(layers, g).body
    ensures forall e :: e in Links(layers, Place(layers, g).coords) ==>
              exists i, j :: Drawn(layers, Place(layers, g).coords, i, j) && e == EdgeLink(layers, Place(layers, g).coords, i, j)
  {
    var p := Place(layers, g);
    AllLayersPlaced(layers, g);
    LinksComplete(layers, p.coords);
    LinksSound(layers, p.coords);
    forall i, j | 0 <= i < |layers| && 0 <= j < |layers[i].from| && layers[i].from[j] in IdxSet(layers)
      ensures Drawn(layers, p.coords, i, j) && EdgeLink(layers, p.coords, i, j) in p.body
    {
      assert layers[i] in layers;
      assert Drawn(layers, p.coords, i, j);
      var links := Links(layers, p.coords);
      assert p.body == p.body[..|p.body| - |links|] + links;
    }
  }
}
