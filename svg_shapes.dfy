/** yolo_graph.py, class SVGBuilder: an element list that node boxes, lane
    backgrounds and links are added to, plus the anchor points of a box and
    the control points of a link. Elements are kept as records; their markup
    text is not modelled. */
module SvgShapes {

  datatype Point = Point(x: real, y: real)

  /** Top-left corner, width and height. */
  datatype Rect = Rect(x: real, y: real, w: real, h: real)

  /** Middle of the left edge. */
  function Left(r: Rect): Point { Point(r.x, r.y + r.h / 2.0) }
  /** Middle of the right edge. */
  function Right(r: Rect): Point { Point(r.x + r.w, r.y + r.h / 2.0) }
  /** Middle of the top edge. */
  function Top(r: Rect): Point { Point(r.x + r.w / 2.0, r.y) }
  /** Middle of the bottom edge. */
  function Bottom(r: Rect): Point { Point(r.x + r.w / 2.0, r.y + r.h) }

  /** `p` lies on the outline of `r` (which has a non-negative size). */
  predicate OnOutline(p: Point, r: Rect) {
    && r.x <= p.x <= r.x + r.w && r.y <= p.y <= r.y + r.h
    && (p.x == r.x || p.x == r.x + r.w || p.y == r.y || p.y == r.y + r.h)
  }

  /** The four anchors of a box of non-negative size are on its outline, one per side. */
  lemma AnchorsOnOutline(r: Rect)
    requires r.w >= 0.0 && r.h >= 0.0
    ensures OnOutline(Left(r), r) && Left(r).x == r.x
    ensures OnOutline(Right(r), r) && Right(r).x == r.x + r.w
    ensures OnOutline(Top(r), r) && Top(r).y == r.y
    ensures OnOutline(Bottom(r), r) && Bottom(r).y == r.y + r.h
  {
  }

  /** The dictionary `add_rect` returns: L, R, T, B and the rectangle. */
  datatype Anchors = Anchors(left: Point, right: Point, top: Point, bottom: Point, rect: Rect)

  datatype Routing = VerticalStraight | Manhattan | DetourRight | Standard

  /** The path of a link: a straight segment or a cubic Bezier curve. */
  datatype Curve =
    | Segment(start: Point, end: Point)
    | Cubic(start: Point, c1: Point, c2: Point, end: Point)

  /** The second text line of a node box: "<stride>x / <channels>c". */
  datatype Sub = Sub(stride: int, channels: int)

  datatype Element =
    | Box(rect: Rect, fill: string, thick: bool)        // stroke width 1.5 when thick, else 1.0
    | Caption(at: Point, text: string)                  // bold label, 14 px
    | SubCaption(at: Point, sub: Sub)                   // second line, 11 px
    | Link(curve: Curve, dashed: bool)                  // arrow-headed path
    | LaneBackground(x: real, w: real, h: real, color: string)  // from y = 30, height h - 30
    | LaneTitle(cx: real, text: string)                 // at y = 55

  /** The layout and colour keys of a configuration that the SVG pipeline reads. */
  datatype Config = Config(
    laneWidthBb: real, laneWidthNeckCol: real, laneWidthHead: real,
    nodeW: real, nodeH: real, radius: real,
    bbStep: real, neckStep: real, colGap: real,
    colors: map<string, string>, font: string)

  /** The three elements `add_rect` appends for one node box. */
  function BoxElements(r: Rect, fill: string, text: string, sub: Sub, thick: bool): seq<Element> {
    var c := Point(r.x + r.w / 2.0, r.y + r.h / 2.0);
    [Box(r, fill, thick), Caption(Point(c.x, c.y - 7.0), text), SubCaption(Point(c.x, c.y + 10.0), sub)]
  }

  /** Horizontal offset of the control points of a `detour_right` link. */
  const DetourOffset: real := 60.0

  /** The path `add_link` draws from `p1` to `p2`. */
  function LinkCurve(p1: Point, p2: Point, routing: Routing): (c: Curve)
    ensures c.start == p1 && c.end == p2
    ensures c.Segment? <==> routing == VerticalStraight
    ensures c.Cubic? ==> c.c1.y == p1.y && c.c2.y == p2.y
    ensures routing == DetourRight ==> c.c1.x > p1.x && c.c2.x > p2.x
  {
    var half := (if p2.x >= p1.x then p2.x - p1.x else p1.x - p2.x) / 2.0;
    match routing
    case VerticalStraight => Segment(p1, p2)
    case Manhattan =>
      var mid := (p1.x + p2.x) / 2.0;
      Cubic(p1, Point(mid, p1.y), Point(mid, p2.y), p2)
    case DetourRight =>
      Cubic(p1, Point(p1.x + DetourOffset, p1.y), Point(p2.x + DetourOffset, p2.y), p2)
    case Standard =>
      Cubic(p1, Point(p1.x + half, p1.y), Point(p2.x - half, p2.y), p2)
  }

  /** A `detour_right` link puts each control point `DetourOffset` (60) to
      the right of its end, at that end's height. */
  lemma DetourRightOffset(p1: Point, p2: Point)
    ensures LinkCurve(p1, p2, DetourRight).Cubic?
    ensures LinkCurve(p1, p2, DetourRight).c1 == Point(p1.x + DetourOffset, p1.y)
    ensures LinkCurve(p1, p2, DetourRight).c2 == Point(p2.x + DetourOffset, p2.y)
  {
  }

  /** A `manhattan` link has both control points at the horizontal midpoint. */
  lemma ManhattanMidpoint(p1: Point, p2: Point)
    ensures LinkCurve(p1, p2, Manhattan).c1.x == LinkCurve(p1, p2, Manhattan).c2.x == (p1.x + p2.x) / 2.0
  {
  }

  /** A forward `standard` link (target not left of the source) is the
      symmetric midpoint curve, the same path as a `manhattan` one. */
  lemma ForwardStandardIsManhattan(p1: Point, p2: Point)
    requires p1.x <= p2.x
    ensures LinkCurve(p1, p2, Standard) == LinkCurve(p1, p2, Manhattan)
  {
  }

  /** A backward `standard` link (target left of the source) bulges outward:
      its control points lie beyond both ends, half the horizontal distance away. */
  lemma BackwardStandardBulges(p1: Point, p2: Point)
    requires p2.x < p1.x
    ensures LinkCurve(p1, p2, Standard).c1.x == p1.x + (p1.x - p2.x) / 2.0 > p1.x
    ensures LinkCurve(p1, p2, Standard).c2.x == p2.x - (p1.x - p2.x) / 2.0 < p2.x
  {
  }

  /** What `generate` produces: the canvas size of the header, the font and
      arrow colour it embeds, and the elements in order. */
  datatype Document = Document(width: real, height: real, font: string, lineColor: string, body: seq<Element>)

  class SvgBuilder {
    const config: Config
    var elements: seq<Element>
    var width: real
    var height: real

    constructor (config: Config)
      ensures this.config == config
      ensures elements == [] && width == 0.0 && height == 0.0
    {
      this.config := config;
      elements := [];
      width := 0.0;
      height := 0.0;
    }

    /** `add_rect`: appends the box and its two text lines, and returns the
        anchors at the middles of the four sides. */
    method AddRect(x: real, y: real, w: real, h: real, fill: string, text: string, sub: Sub, isConcat: bool)
      returns (a: Anchors)
      modifies this`elements
      ensures a.rect == Rect(x, y, w, h)
      ensures a.left == Point(x, y + h / 2.0) && a.right == Point(x + w, y + h / 2.0)
      ensures a.top == Point(x + w / 2.0, y) && a.bottom == Point(x + w / 2.0, y + h)
      ensures elements == old(elements) + BoxElements(Rect(x, y, w, h), fill, text, sub, isConcat)
    {
      var r := Rect(x, y, w, h);
      elements := elements + [Box(r, fill, isConcat)];
      var cx, cy := x + w / 2.0, y + h / 2.0;
      elements := elements + [Caption(Point(cx, cy - 7.0), text)];
      elements := elements + [SubCaption(Point(cx, cy + 10.0), sub)];
      a := Anchors(Point(x, cy), Point(x + w, cy), Point(cx, y), Point(cx, y + h), r);
    }

    /** `add_bg_lane`: the lane background goes in front of every element
        (drawn first, so underneath), its title after every element. */
    method AddBgLane(x: real, w: real, h: real, text: string, color: string)
      modifies this`elements
      ensures elements == [LaneBackground(x, w, h, color)] + old(elements) + [LaneTitle(x + w / 2.0, text)]
    {
      elements := [LaneBackground(x, w, h, color)] + elements;
      elements := elements + [LaneTitle(x + w / 2.0, text)];
    }

    /** `add_link`: appends one path from `p1` to `p2`. The path is chosen by
        branching as the source does; `LinkCurve` is the same choice as a
        function, so the layout specifications can name the path. */
    method AddLink(p1: Point, p2: Point, dashed: bool, routing: Routing)
      modifies this`elements
      ensures elements == old(elements) + [Link(LinkCurve(p1, p2, routing), dashed)]
    {
      var curve: Curve;
      var half := (if p2.x >= p1.x then p2.x - p1.x else p1.x - p2.x) / 2.0;
      if routing == VerticalStraight {
        curve := Segment(p1, p2);
      } else if routing == Manhattan {
        var mid := (p1.x + p2.x) / 2.0;
        curve := Cubic(p1, Point(mid, p1.y), Point(mid, p2.y), p2);
      } else if routing == DetourRight {
        curve := Cubic(p1, Point(p1.x + DetourOffset, p1.y), Point(p2.x + DetourOffset, p2.y), p2);
      } else {
        curve := Cubic(p1, Point(p1.x + half, p1.y), Point(p2.x - half, p2.y), p2);
      }
      elements := elements + [Link(curve, dashed)];
    }

    /** `generate`: the header's view box is the canvas size, and the body is
        the element list in order. */
    function Generate(): (d: Document)
      reads this
      requires "line" in config.colors
      ensures d.width == width && d.height == height && d.body == elements
      ensures d.font == config.font && d.lineColor == config.colors["line"]
    {
      Document(width, height, config.font, config.colors["line"], elements)
    }
  }
}
