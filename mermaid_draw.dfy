/** yml2modelgraph_mermaid.py, draw_mermaid: the lines of a Mermaid flowchart
    with one subgraph per lane, three invisible anchors that align the lanes,
    and one link per edge. */
module MermaidDraw {
  import opened Text
  import opened MermaidParse

  datatype Lane = Backbone | Neck | Head

  /** The subgraph title of a lane. */
  function Title(g: Lane): string {
    match g
    case Backbone => "Backbone"
    case Neck => "Neck"
    case Head => "Head"
  }

  /** A node a link names: a layer `L<idx>`, the input image, or anchor `T<k>`. */
  datatype NodeRef = LayerNode(idx: int) | InputNode | AnchorNode(k: nat)

  /** One line of the flowchart. */
  datatype Line =
    | Fixed(text: string)
    | SubgraphStart(lane: Lane)
    | Direction
    | NodeLine(idx: nat, caption: string, lane: Lane)
    | SubgraphEnd
    | AnchorLink(k: nat, dst: int)
    | EdgeLine(src: NodeRef, dst: int)
    | LinkStyle(hidden: seq<nat>)

  function RefText(r: NodeRef): string {
    match r
    case LayerNode(i) => "L" + IntText(i)
    case InputNode => "Input"
    case AnchorNode(k) => "T" + NatText(k)
  }

  function NatTexts(ns: seq<nat>): (ts: seq<string>)
    ensures |ts| == |ns|
  {
    seq(|ns|, i requires 0 <= i < |ns| => NatText(ns[i]))
  }

  /** The text of a line. */
  function Render(line: Line): string {
    match line
    case Fixed(t) => t
    case SubgraphStart(g) => "    subgraph " + Title(g)
    case Direction => "        direction TB"
    case NodeLine(i, c, g) => "        L" + IntText(i) + "[\"" + c + "\"]:::" + AsciiLower(Title(g))
    case SubgraphEnd => "    end"
    case AnchorLink(k, d) => "    " + RefText(AnchorNode(k)) + " --- " + RefText(LayerNode(d))
    case EdgeLine(s, d) => "    " + RefText(s) + " --> " + RefText(LayerNode(d))
    case LinkStyle(h) => "    linkStyle " + Join(NatTexts(h), ",") + " stroke:none"
  }

  /** The file the flowchart is saved as: its lines joined by newlines. */
  function FileText(lines: seq<Line>): string {
    Join(seq(|lines|, i requires 0 <= i < |lines| => Render(lines[i])), "\n")
  }

  /** The backbone lane: the first `backboneLen` layers. */
  function BackboneNodes(layers: seq<MLayer>, backboneLen: nat): (ns: seq<MLayer>)
    ensures |ns| == if backboneLen < |layers| then backboneLen else |layers|
    ensures forall k :: 0 <= k < |ns| ==> ns[k] == layers[k]
  {
    if backboneLen < |layers| then layers[..backboneLen] else layers
  }

  /** The neck lane: the layers after the backbone but the last, when there
      are any. */
  function NeckNodes(layers: seq<MLayer>, backboneLen: nat): (ns: seq<MLayer>)
    ensures ns != [] <==> backboneLen < |layers| - 1
    ensures ns != [] ==> |ns| == |layers| - 1 - backboneLen
    ensures forall k :: 0 <= k < |ns| ==> ns[k] == layers[backboneLen + k]
  {
    if backboneLen < |layers| - 1 then layers[backboneLen..|layers| - 1] else []
  }

  /** The head lane: the last layer alone, when there is one (a layer
      position is never negative). */
  function HeadNodes(layers: seq<MLayer>): (ns: seq<MLayer>)
    ensures ns != [] <==> layers != []
    ensures ns != [] ==> ns == [layers[|layers| - 1]]
  {
    if layers != [] then [layers[|layers| - 1]] else []
  }

  function Nodes(layers: seq<MLayer>, backboneLen: nat, g: Lane): seq<MLayer> {
    match g
    case Backbone => BackboneNodes(layers, backboneLen)
    case Neck => NeckNodes(layers, backboneLen)
    case Head => HeadNodes(layers)
  }

  /** The anchor number of a lane: T1, T2, T3. */
  function AnchorOf(g: Lane): nat {
    match g
    case Backbone => 1
    case Neck => 2
    case Head => 3
  }

  function NodeLines(nodes: seq<MLayer>, g: Lane): (ls: seq<Line>)
    ensures |ls| == |nodes|
    ensures forall k :: 0 <= k < |nodes| ==> ls[k] == NodeLine(nodes[k].idx, nodes[k].caption, g)
  {
    seq(|nodes|, k requires 0 <= k < |nodes| => NodeLine(nodes[k].idx, nodes[k].caption, g))
  }

  /** The subgraph of one lane: a node line per layer, in order. */
  function GroupLines(g: Lane, nodes: seq<MLayer>): seq<Line> {
    [SubgraphStart(g), Direction] + NodeLines(nodes, g) + [SubgraphEnd, Fixed("")]
  }

  /** The anchor link of a lane: its anchor to its first node, none for an
      empty lane. */
  function AnchorFor(layers: seq<MLayer>, backboneLen: nat, g: Lane): (r: seq<Line>)
    ensures |r| <= 1
    ensures r != [] <==> Nodes(layers, backboneLen, g) != []
    ensures r != [] ==> r[0] == AnchorLink(AnchorOf(g), Nodes(layers, backboneLen, g)[0].idx)
  {
    var ns := Nodes(layers, backboneLen, g);
    if ns != [] then [AnchorLink(AnchorOf(g), ns[0].idx)] else []
  }

  /** The anchor links, backbone first. */
  function Anchors(layers: seq<MLayer>, backboneLen: nat): seq<Line> {
    AnchorFor(layers, backboneLen, Backbone) + AnchorFor(layers, backboneLen, Neck) + AnchorFor(layers, backboneLen, Head)
  }

  /** The link line of an edge: a negative source is the input image. */
  function EdgeLineOf(e: (int, int)): (l: Line)
    ensures l.EdgeLine? && l.dst == e.1
    ensures l.src == InputNode <==> e.0 < 0
    ensures e.0 >= 0 ==> l.src == LayerNode(e.0)
  {
    EdgeLine(if e.0 >= 0 then LayerNode(e.0) else InputNode, e.1)
  }

  function EdgeLines(edges: seq<(int, int)>): (ls: seq<Line>)
    ensures |ls| == |edges|
    ensures forall k :: 0 <= k < |edges| ==> ls[k] == EdgeLineOf(edges[k])
  {
    seq(|edges|, k requires 0 <= k < |edges| => EdgeLineOf(edges[k]))
  }

  /** `0, 1, ..., n - 1`. */
  function Upto(n: nat): (r: seq<nat>)
    ensures |r| == n
    ensures forall i :: 0 <= i < n ==> r[i] == i
  {
    seq(n, i requires 0 <= i < n => i)
  }

  const Header: seq<Line> := [
    Fixed("flowchart LR"),
    Fixed("    %% YAML -> Model 3-column graph"),
    Fixed("    Input((\"Input<br>C=3\")):::input")]

  const AnchorNodes: seq<Line> := [
    Fixed("    T1((\" \")):::invis"),
    Fixed("    T2((\" \")):::invis"),
    Fixed("    T3((\" \")):::invis"),
    Fixed("")]

  const ClassDefs: seq<Line> := [
    Fixed(""),
    Fixed("    classDef backbone fill:#C2E7D9,stroke:#2F4F4F,stroke-width:1px;"),
    Fixed("    classDef neck fill:#FFD6A5,stroke:#2F4F4F,stroke-width:1px;"),
    Fixed("    classDef head fill:#FFB5A7,stroke:#2F4F4F,stroke-width:1px;"),
    Fixed("    classDef input fill:#FFF0B3,stroke:#555,stroke-width:1px;"),
    Fixed("    classDef invis fill:none,stroke:none;")]

  /** The line that hides the anchor links, when there are any. */
  function HideAnchors(anchors: seq<Line>): seq<Line> {
    if anchors != [] then [Fixed(""), LinkStyle(Upto(|anchors|))] else []
  }

  /** The lines before the links: the header, the three subgraphs and the
      anchor nodes. */
  function Prelude(layers: seq<MLayer>, backboneLen: nat): seq<Line> {
    Header
      + GroupLines(Backbone, BackboneNodes(layers, backboneLen))
      + GroupLines(Neck, NeckNodes(layers, backboneLen))
      + GroupLines(Head, HeadNodes(layers))
      + AnchorNodes
  }

  /** The lines after the links: the `linkStyle` line and the class styles. */
  function Closing(anchors: seq<Line>): seq<Line> {
    HideAnchors(anchors) + ClassDefs
  }

  /** All lines of the flowchart. */
  function MermaidLines(layers: seq<MLayer>, edges: seq<(int, int)>, backboneLen: nat): seq<Line> {
    var anchors := Anchors(layers, backboneLen);
    Prelude(layers, backboneLen) + (anchors + EdgeLines(edges)) + Closing(anchors)
  }

  predicate IsLink(l: Line) {
    l.AnchorLink? || l.EdgeLine?
  }

  /** The links in the order Mermaid numbers them. */
  function LinksOf(lines: seq<Line>): seq<Line>
    decreases |lines|
  {
    if lines == [] then []
    else LinksOf(lines[..|lines| - 1]) + (if IsLink(lines[|lines| - 1]) then [lines[|lines| - 1]] else [])
  }

  lemma {:induction false} LinksOfAppend(a: seq<Line>, b: seq<Line>)
    ensures LinksOf(a + b) == LinksOf(a) + LinksOf(b)
    decreases |b|
  {
    if b != [] {
      var n := |b| - 1;
      assert (a + b)[..|a + b| - 1] == a + b[..n];
      assert (a + b)[|a + b| - 1] == b[n];
      LinksOfAppend(a, b[..n]);
    } else {
      assert a + b == a;
    }
  }

  lemma {:induction false} LinksOfNone(s: seq<Line>)
    requires forall k :: 0 <= k < |s| ==> !IsLink(s[k])
    ensures LinksOf(s) == []
    decreases |s|
  {
    if s != [] {
      LinksOfNone(s[..|s| - 1]);
    }
  }

  lemma {:induction false} LinksOfAll(s: seq<Line>)
    requires forall k :: 0 <= k < |s| ==> IsLink(s[k])
    ensures LinksOf(s) == s
    decreases |s|
  {
    if s != [] {
      LinksOfAll(s[..|s| - 1]);
    }
  }

  /** A subgraph holds no link. */
  lemma GroupHasNoLinks(g: Lane, nodes: seq<MLayer>)
    ensures LinksOf(GroupLines(g, nodes)) == []
    ensures forall l :: l in GroupLines(g, nodes) ==> !l.LinkStyle?
  {
    LinksOfNone(GroupLines(g, nodes));
  }

  /** The prelude holds no link. */
  lemma PreludeHasNoLinks(layers: seq<MLayer>, backboneLen: nat)
    ensures LinksOf(Prelude(layers, backboneLen)) == []
  {
    var g1 := GroupLines(Backbone, BackboneNodes(layers, backboneLen));
    var g2 := GroupLines(Neck, NeckNodes(layers, backboneLen));
    var g3 := GroupLines(Head, HeadNodes(layers));
    GroupHasNoLinks(Backbone, BackboneNodes(layers, backboneLen));
    GroupHasNoLinks(Neck, NeckNodes(layers, backboneLen));
    GroupHasNoLinks(Head, HeadNodes(layers));
    LinksOfNone(Header);
    LinksOfNone(AnchorNodes);
    NoLinks5(Header, g1, g2, g3, AnchorNodes);
  }

  lemma NoLinks5(a: seq<Line>, b: seq<Line>, c: seq<Line>, d: seq<Line>, e: seq<Line>)
    requires LinksOf(a) == [] && LinksOf(b) == [] && LinksOf(c) == [] && LinksOf(d) == [] && LinksOf(e) == []
    ensures LinksOf(a + b + c + d + e) == []
  {
    LinksOfAppend(a, b);
    LinksOfAppend(a + b, c);
    LinksOfAppend(a + b + c, d);
    LinksOfAppend(a + b + c + d, e);
  }

  /** The prelude holds no `linkStyle` line. */
  lemma PreludeHasNoStyle(layers: seq<MLayer>, backboneLen: nat)
    ensures forall l :: l in Prelude(layers, backboneLen) ==> !l.LinkStyle?
  {
    GroupHasNoLinks(Backbone, BackboneNodes(layers, backboneLen));
    GroupHasNoLinks(Neck, NeckNodes(layers, backboneLen));
    GroupHasNoLinks(Head, HeadNodes(layers));
  }

  /** The closing lines hold no link. */
  lemma ClosingHasNoLinks(anchors: seq<Line>)
    ensures LinksOf(Closing(anchors)) == []
  {
    LinksOfNone(HideAnchors(anchors));
    LinksOfNone(ClassDefs);
    LinksOfAppend(HideAnchors(anchors), ClassDefs);
  }

  /** The anchor links and the edge lines are all links. */
  lemma LinkLinesAreLinks(layers: seq<MLayer>, edges: seq<(int, int)>, backboneLen: nat)
    ensures LinksOf(Anchors(layers, backboneLen) + EdgeLines(edges)) == Anchors(layers, backboneLen) + EdgeLines(edges)
  {
    var a1 := AnchorFor(layers, backboneLen, Backbone);
    var a2 := AnchorFor(layers, backboneLen, Neck);
    var a3 := AnchorFor(layers, backboneLen, Head);
    var es := EdgeLines(edges);
    assert Anchors(layers, backboneLen) == a1 + a2 + a3;
    LinksOfAll(a1);
    LinksOfAll(a2);
    LinksOfAll(a3);
    LinksOfAll(es);
    LinksOfFour(a1, a2, a3, es);
  }

  lemma LinksOfFour(a1: seq<Line>, a2: seq<Line>, a3: seq<Line>, es: seq<Line>)
    requires LinksOf(a1) == a1 && LinksOf(a2) == a2 && LinksOf(a3) == a3 && LinksOf(es) == es
    ensures LinksOf(a1 + a2 + a3 + es) == a1 + a2 + a3 + es
  {
    LinksOfAppend(a1, a2);
    LinksOfAppend(a1 + a2, a3);
    LinksOfAppend(a1 + a2 + a3, es);
  }

  /** The links of the flowchart are the anchor links followed by one link per
      edge, in edge order. */
  lemma MermaidLinks(layers: seq<MLayer>, edges: seq<(int, int)>, backboneLen: nat)
    ensures LinksOf(MermaidLines(layers, edges, backboneLen)) == Anchors(layers, backboneLen) + EdgeLines(edges)
  {
    var anchors := Anchors(layers, backboneLen);
    var pre := Prelude(layers, backboneLen);
    var links := anchors + EdgeLines(edges);
    var post := Closing(anchors);
    PreludeHasNoLinks(layers, backboneLen);
    ClosingHasNoLinks(anchors);
    LinkLinesAreLinks(layers, edges, backboneLen);
    LinksOfAppend(pre, links);
    LinksOfAppend(pre + links, post);
  }

  lemma UptoMembers(n: nat, x: nat)
    ensures x in Upto(n) <==> x < n
  {
    if x < n {
      assert Upto(n)[x] == x;
    }
  }

  /** In a list of anchor links followed by edge lines, the positions below
      the number of anchor links are exactly the anchor links. */
  lemma HiddenPrefix(anchors: seq<Line>, rest: seq<Line>, i: nat)
    requires forall a :: a in anchors ==> a.AnchorLink?
    requires forall r :: r in rest ==> r.EdgeLine?
    requires i < |anchors| + |rest|
    ensures i in Upto(|anchors|) <==> (anchors + rest)[i].AnchorLink?
  {
    UptoMembers(|anchors|, i);
    if i < |anchors| {
      assert (anchors + rest)[i] == anchors[i];
      assert Upto(|anchors|)[i] == i;
    } else {
      assert (anchors + rest)[i] == rest[i - |anchors|];
      assert rest[i - |anchors|] in rest;
    }
  }

  lemma AnchorsAreAnchorLinks(layers: seq<MLayer>, backboneLen: nat)
    ensures forall a :: a in Anchors(layers, backboneLen) ==> a.AnchorLink?
  {
  }

  /** With anchor links, the `linkStyle` line is written and hides exactly
      the first links, which are the anchor links: no model edge is hidden
      and every anchor link is. */
  lemma LinkStyleHidesAnchors(layers: seq<MLayer>, edges: seq<(int, int)>, backboneLen: nat, i: nat)
    requires Anchors(layers, backboneLen) != []
    requires i < |LinksOf(MermaidLines(layers, edges, backboneLen))|
    ensures LinkStyle(Upto(|Anchors(layers, backboneLen)|)) in MermaidLines(layers, edges, backboneLen)
    ensures i in Upto(|Anchors(layers, backboneLen)|) <==> LinksOf(MermaidLines(layers, edges, backboneLen))[i].AnchorLink?
  {
    var anchors := Anchors(layers, backboneLen);
    MermaidLinks(layers, edges, backboneLen);
    AnchorsAreAnchorLinks(layers, backboneLen);
    HiddenPrefix(anchors, EdgeLines(edges), i);
    LinkStyleWritten(layers, edges, backboneLen);
  }

  lemma LinkStyleWritten(layers: seq<MLayer>, edges: seq<(int, int)>, backboneLen: nat)
    requires Anchors(layers, backboneLen) != []
    ensures LinkStyle(Upto(|Anchors(layers, backboneLen)|)) in MermaidLines(layers, edges, backboneLen)
  {
    var anchors := Anchors(layers, backboneLen);
    assert LinkStyle(Upto(|anchors|)) in Closing(anchors) by {
      assert Closing(anchors)[1] == LinkStyle(Upto(|anchors|));
    }
  }

  /** There are anchor links exactly when there are layers. */
  lemma AnchorsIffLayers(layers: seq<MLayer>, backboneLen: nat)
    ensures Anchors(layers, backboneLen) == [] <==> layers == []
  {
    if layers != [] {
      assert AnchorFor(layers, backboneLen, Head) != [];
    }
  }

  /** The closing lines hold a `linkStyle` line only when there are anchor links. */
  lemma ClosingStyle(anchors: seq<Line>)
    ensures anchors == [] ==> forall l :: l in Closing(anchors) ==> !l.LinkStyle?
  {
    if anchors == [] {
      assert Closing(anchors) == ClassDefs;
    }
  }

  /** Without layers there are no anchor links and no `linkStyle` line. */
  lemma NoLinkStyleWithoutLayers(layers: seq<MLayer>, edges: seq<(int, int)>, backboneLen: nat)
    requires layers == []
    ensures Anchors(layers, backboneLen) == []
    ensures forall l :: l in MermaidLines(layers, edges, backboneLen) ==> !l.LinkStyle?
  {
    AnchorsIffLayers(layers, backboneLen);
    PreludeHasNoStyle(layers, backboneLen);
    ClosingStyle(Anchors(layers, backboneLen));
    assert forall l :: l in EdgeLines(edges) ==> l.EdgeLine?;
  }

  /** A link in a lane's anchor list is that lane's anchor to its first node. */
  lemma AnchorForMember(layers: seq<MLayer>, backboneLen: nat, g: Lane, a: Line)
    requires a in AnchorFor(layers, backboneLen, g)
    ensures Nodes(layers, backboneLen, g) != []
    ensures a == AnchorLink(AnchorOf(g), Nodes(layers, backboneLen, g)[0].idx)
  {
  }

  /** Each lane gets its anchor link exactly when it has a node, and the link
      goes to the lane's first node. */
  lemma AnchorsOfLanes(layers: seq<MLayer>, backboneLen: nat, g: Lane)
    ensures (exists a :: a in Anchors(layers, backboneLen) && a.AnchorLink? && a.k == AnchorOf(g)) <==> Nodes(layers, backboneLen, g) != []
    ensures forall a :: a in Anchors(layers, backboneLen) && a.AnchorLink? && a.k == AnchorOf(g) ==>
              Nodes(layers, backboneLen, g) != [] && a == AnchorLink(AnchorOf(g), Nodes(layers, backboneLen, g)[0].idx)
  {
    var a1 := AnchorFor(layers, backboneLen, Backbone);
    var a2 := AnchorFor(layers, backboneLen, Neck);
    var a3 := AnchorFor(layers, backboneLen, Head);
    var all := Anchors(layers, backboneLen);
    assert all == a1 + a2 + a3;
    forall a | a in all && a.AnchorLink? && a.k == AnchorOf(g)
      ensures Nodes(layers, backboneLen, g) != [] && a == AnchorLink(AnchorOf(g), Nodes(layers, backboneLen, g)[0].idx)
    {
      InThree(a1, a2, a3, a);
      if a in a1 {
        AnchorForMember(layers, backboneLen, Backbone, a);
      } else if a in a2 {
        AnchorForMember(layers, backboneLen, Neck, a);
      } else {
        AnchorForMember(layers, backboneLen, Head, a);
      }
    }
    if Nodes(layers, backboneLen, g) != [] {
      var mine := AnchorFor(layers, backboneLen, g);
      var w := mine[0];
      assert w in all by {
        match g
        case Backbone => assert mine == a1;
        case Neck => assert mine == a2;
        case Head => assert mine == a3;
      }
      assert w.AnchorLink? && w.k == AnchorOf(g);
    }
  }

  /** A member of three joined lists is in one of them. */
  lemma InThree(a1: seq<Line>, a2: seq<Line>, a3: seq<Line>, a: Line)
    requires a in a1 + a2 + a3
    ensures a in a1 || a in a2 || a in a3
  {
  }

  /** Every layer is drawn in some lane: the lanes split the layer list into
      its first `backboneLen` layers, the layers after them but the last, and
      the last one. */
  lemma EveryLayerDrawn(layers: seq<MLayer>, backboneLen: nat, k: nat)
    requires k < |layers|
    ensures (k < backboneLen && layers[k] in BackboneNodes(layers, backboneLen))
         || (backboneLen <= k < |layers| - 1 && layers[k] in NeckNodes(layers, backboneLen))
         || (k == |layers| - 1 && layers[k] in HeadNodes(layers))
  {
    if k < backboneLen {
      assert BackboneNodes(layers, backboneLen)[k] == layers[k];
    } else if k < |layers| - 1 {
      assert NeckNodes(layers, backboneLen)[k - backboneLen] == layers[k];
    }
  }

  /** When the backbone does not leave out the last layer, the lanes are a
      partition of the layer list. */
  lemma LanesPartition(layers: seq<MLayer>, backboneLen: nat)
    requires backboneLen < |layers|
    ensures BackboneNodes(layers, backboneLen) + NeckNodes(layers, backboneLen) + HeadNodes(layers) == layers
  {
    var bb := BackboneNodes(layers, backboneLen);
    var all := bb + NeckNodes(layers, backboneLen) + HeadNodes(layers);
    assert |all| == |layers|;
    forall k | 0 <= k < |layers|
      ensures all[k] == layers[k]
    {
      if k < backboneLen {
      } else if k < |layers| - 1 {
        assert all[k] == NeckNodes(layers, backboneLen)[k - backboneLen];
      }
    }
  }

  /** When the backbone reaches the last layer, that layer is drawn twice: in
      the backbone subgraph and, as the head, in the head subgraph; the neck
      is empty. */
  lemma LastBackboneLayerIsHead(layers: seq<MLayer>, backboneLen: nat)
    requires 0 < |layers| <= backboneLen
    ensures BackboneNodes(layers, backboneLen) == layers
    ensures NeckNodes(layers, backboneLen) == []
    ensures HeadNodes(layers) == [layers[|layers| - 1]]
  {
  }

  /** With every entry a row, the backbone lane holds exactly the layers
      recorded in the backbone group. */
  lemma LanesFollowGroups(entries: seq<Entry>, input: int, backboneLen: nat, gd: real, gw: real, show: Fields, k: nat)
    requires forall i :: 0 <= i < |entries| ==> entries[i].Row?
    requires k < |Run(entries, input, backboneLen, gd, gw, show).layers|
    ensures var layers := Run(entries, input, backboneLen, gd, gw, show).layers;
      layers[k] in BackboneNodes(layers, backboneLen) <==> layers[k].group == BackboneGroup
  {
    var layers := Run(entries, input, backboneLen, gd, gw, show).layers;
    RunAllKept(entries, input, backboneLen, gd, gw, show);
    RunRecorded(entries, input, backboneLen, gd, gw, show);
    RunOrdered(entries, input, backboneLen, gd, gw, show);
    assert layers[k] in layers;
    var bb := BackboneNodes(layers, backboneLen);
    if layers[k] in bb {
      var j :| 0 <= j < |bb| && bb[j] == layers[k];
      assert layers[j].idx == j;
    }
  }

  /** The lanes count layers, while the backbone length counts entries: when
      a backbone entry is skipped, the first head layer is drawn in the
      backbone subgraph (and, being the last layer, in the head subgraph). */
  lemma SkippedBackboneEntryShiftsLanes(conv: Entry, detect: Entry)
    requires conv.Row? && detect.Row?
    ensures var layers := Run([Skipped, conv, detect], 3, 2, 1.0, 1.0, ShowFields).layers;
      && |layers| == 2
      && layers[1].idx == 2 && layers[1].group == HeadGroup
      && layers[1] in BackboneNodes(layers, 2)
      && layers[1] in HeadNodes(layers)
  {
    var entries := [Skipped, conv, detect];
    assert entries[..2] == [Skipped, conv];
    assert entries[..2][..1] == [Skipped];
    assert [Skipped][..0] == [];
    var s1 := Run([Skipped], 3, 2, 1.0, 1.0, ShowFields);
    assert s1.layers == [];
    var s2 := Run([Skipped, conv], 3, 2, 1.0, 1.0, ShowFields);
    assert |s2.layers| == 1;
    var layers := Run(entries, 3, 2, 1.0, 1.0, ShowFields).layers;
    assert layers == s2.layers + [LayerOf(s2.ch, 2, detect, 2, 1.0, 1.0, ShowFields)];
    assert BackboneNodes(layers, 2)[1] == layers[1];
  }

  /** Appends the subgraph of one lane. */
  method AddGroup(lines: seq<Line>, g: Lane, nodes: seq<MLayer>) returns (r: seq<Line>)
    ensures r == lines + GroupLines(g, nodes)
  {
    r := lines + [SubgraphStart(g), Direction];
    var i := 0;
    while i < |nodes|
      invariant 0 <= i <= |nodes|
      invariant r == lines + [SubgraphStart(g), Direction] + NodeLines(nodes[..i], g)
    {
      assert NodeLines(nodes[..i + 1], g) == NodeLines(nodes[..i], g) + [NodeLine(nodes[i].idx, nodes[i].caption, g)];
      r := r + [NodeLine(nodes[i].idx, nodes[i].caption, g)];
      i := i + 1;
    }
    assert nodes[..i] == nodes;
    r := r + [SubgraphEnd, Fixed("")];
  }

  /** The anchor links, one per lane that has a node. */
  method BuildAnchors(bb: seq<MLayer>, neck: seq<MLayer>, head: seq<MLayer>) returns (anchors: seq<Line>)
    ensures anchors == (if bb != [] then [AnchorLink(1, bb[0].idx)] else [])
                     + (if neck != [] then [AnchorLink(2, neck[0].idx)] else [])
                     + (if head != [] then [AnchorLink(3, head[0].idx)] else [])
  {
    anchors := [];
    if bb != [] {
      anchors := anchors + [AnchorLink(1, bb[0].idx)];
    }
    if neck != [] {
      anchors := anchors + [AnchorLink(2, neck[0].idx)];
    }
    if head != [] {
      anchors := anchors + [AnchorLink(3, head[0].idx)];
    }
  }

  /** Appends one link line per edge. */
  method AddEdges(lines: seq<Line>, edges: seq<(int, int)>) returns (r: seq<Line>)
    ensures r == lines + EdgeLines(edges)
  {
    r := lines;
    var i := 0;
    while i < |edges|
      invariant 0 <= i <= |edges|
      invariant r == lines + EdgeLines(edges[..i])
    {
      var (src, dst) := edges[i];
      var srcId := if src >= 0 then LayerNode(src) else InputNode;
      assert EdgeLines(edges[..i + 1]) == EdgeLines(edges[..i]) + [EdgeLineOf(edges[i])];
      r := r + [EdgeLine(srcId, dst)];
      i := i + 1;
    }
    assert edges[..i] == edges;
  }

  /** The `linkStyle` line for `n` anchor links. */
  method HiddenLinks(n: nat) returns (idxs: seq<nat>)
    ensures idxs == Upto(n)
  {
    idxs := [];
    var k := 0;
    while k < n
      invariant 0 <= k <= n
      invariant idxs == Upto(k)
    {
      idxs := idxs + [k];
      k := k + 1;
    }
  }

  /** The anchor links, written with the three lane lists. */
  lemma AnchorsOfNodes(layers: seq<MLayer>, backboneLen: nat)
    ensures var bb, neck, head := BackboneNodes(layers, backboneLen), NeckNodes(layers, backboneLen), HeadNodes(layers);
            Anchors(layers, backboneLen)
              == (if bb != [] then [AnchorLink(1, bb[0].idx)] else [])
               + (if neck != [] then [AnchorLink(2, neck[0].idx)] else [])
               + (if head != [] then [AnchorLink(3, head[0].idx)] else [])
  {
  }

  /** The prelude, the links and the closing lines, appended one after the
      other, are the flowchart. */
  lemma Assembled(layers: seq<MLayer>, edges: seq<(int, int)>, backboneLen: nat, pre: seq<Line>, anchors: seq<Line>, closing: seq<Line>)
    requires pre == Prelude(layers, backboneLen) && anchors == Anchors(layers, backboneLen) && closing == Closing(anchors)
    ensures pre + anchors + EdgeLines(edges) + closing == MermaidLines(layers, edges, backboneLen)
  {
    assert pre + anchors + EdgeLines(edges) == pre + (anchors + EdgeLines(edges));
  }

  /** `draw_mermaid`, without saving the file: the flowchart's lines. */
  method DrawMermaid(layers: seq<MLayer>, edges: seq<(int, int)>, backboneLen: nat) returns (lines: seq<Line>)
    ensures lines == MermaidLines(layers, edges, backboneLen)
  {
    var bb := BackboneNodes(layers, backboneLen);
    var neck := NeckNodes(layers, backboneLen);
    var head := HeadNodes(layers);
    lines := Header;
    lines := AddGroup(lines, Backbone, bb);
    lines := AddGroup(lines, Neck, neck);
    lines := AddGroup(lines, Head, head);
    lines := lines + AnchorNodes;
    ghost var before := lines;
    assert before == Prelude(layers, backboneLen);

    var anchors := BuildAnchors(bb, neck, head);
    AnchorsOfNodes(layers, backboneLen);
    lines := lines + anchors;
    lines := AddEdges(lines, edges);

    var closing: seq<Line> := [];
    if anchors != [] {
      var idxs := HiddenLinks(|anchors|);
      closing := [Fixed(""), LinkStyle(idxs)];
    }
    closing := closing + ClassDefs;
    assert closing == Closing(anchors);
    Assembled(layers, edges, backboneLen, before, anchors, closing);
    lines := lines + closing;
  }
}
