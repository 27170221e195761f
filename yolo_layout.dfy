/** yolo_graph.py, `parse_and_layout` stages 2 to 4: placing the parsed
    layers in the backbone column, the neck sub-columns and the head lane,
    routing one link per placed (source, destination) pair, and sizing the
    canvas with its three lane backgrounds. */
module YoloLayout {
  import opened Text
  import opened SvgShapes
  import opened YoloParse

  /** Top y of the first node of the backbone column and of every neck sub-column. */
  const StartY: real := 100.0
  /** Space below the lowest backbone node. */
  const BottomMargin: real := 50.0
  /** `neck_col_id` recorded for backbone and head nodes. */
  const NoNeckColumn: int := -1
  const HeadColumnId: int := 99

  /** What `coords` records for a placed node: its box, its lane (`col`) and
      its neck sub-column (`neck_col_id`). */
  datatype Placed = Placed(rect: Rect, lane: Lane, neckCol: int)

  type Coords = map<int, Placed>

  /** Node indices strictly increase along `items`. */
  ghost predicate IdxIncreasing(items: seq<Layer>) {
    forall j, k :: 0 <= j < k < |items| ==> items[j].idx < items[k].idx
  }

  ghost function IdxSet(items: seq<Layer>): set<int> {
    set l | l in items :: l.idx
  }

  /** `[l for l in layers if l["col"] == lane]`. */
  function OfLane(layers: seq<Layer>, lane: Lane): (r: seq<Layer>)
    ensures forall l :: l in r <==> l in layers && l.lane == lane
    ensures IdxIncreasing(layers) ==> IdxIncreasing(r)
  {
    if layers == [] then []
    else if layers[0].lane == lane then [layers[0]] + OfLane(layers[1..], lane)
    else OfLane(layers[1..], lane)
  }

  // ---------------------------------------------------------------- columns

  /** `k` steps of `step`, added one at a time as the cursor of a column loop is. */
  function Steps(k: nat, step: real): real
    decreases k
  {
    if k == 0 then 0.0 else Steps(k - 1, step) + step
  }

  lemma {:induction false} StepsIsProduct(k: nat, step: real)
    ensures Steps(k, step) == k as real * step
    decreases k
  {
    if k > 0 {
      StepsIsProduct(k - 1, step);
      assert k as real * step == (k - 1) as real * step + step;
    }
  }

  /** The box of the `k`-th node of a column whose boxes start at `x`, spaced `step` apart. */
  function StackRect(x: real, k: nat, step: real, g: Config): Rect {
    Rect(x, StartY + Steps(k, step), g.nodeW, g.nodeH)
  }

  /** The three elements of the box of `l` at `r`. */
  function NodeElements(l: Layer, r: Rect): seq<Element> {
    BoxElements(r, l.fill, l.text, Sub(l.stride, l.channels), l.isConcat)
  }

  /** The elements of a column of nodes, top to bottom. */
  function StackElements(items: seq<Layer>, x: real, step: real, g: Config): seq<Element>
    decreases |items|
  {
    if items == [] then []
    else
      var n := |items| - 1;
      StackElements(items[..n], x, step, g) + NodeElements(items[n], StackRect(x, n, step, g))
  }

  /** The coordinates after placing the column `items` over `coords0`: the
      `k`-th node of the column at `StackRect(x, k, step, g)`. */
  function ColumnMap(coords0: Coords, items: seq<Layer>, x: real, step: real, lane: Lane, colId: int, g: Config): Coords
    decreases |items|
  {
    if items == [] then coords0
    else
      var n := |items| - 1;
      ColumnMap(coords0, items[..n], x, step, lane, colId, g)[items[n].idx := Placed(StackRect(x, n, step, g), lane, colId)]
  }

  /** One column loop of `parse_and_layout` (the backbone column, or one neck
      sub-column): the `k`-th node gets the box at `StartY + k * step`. */
  method PlaceColumn(svg: SvgBuilder, items: seq<Layer>, x: real, step: real, lane: Lane, colId: int, coords0: Coords)
    returns (coords: Coords, nextY: real)
    modifies svg`elements
    ensures svg.elements == old(svg.elements) + StackElements(items, x, step, svg.config)
    ensures nextY == StartY + Steps(|items|, step)
    ensures coords == ColumnMap(coords0, items, x, step, lane, colId, svg.config)
  {
    coords := coords0;
    nextY := StartY;
    var k := 0;
    while k < |items|
      invariant 0 <= k <= |items|
      invariant nextY == StartY + Steps(k, step)
      invariant svg.elements == old(svg.elements) + StackElements(items[..k], x, step, svg.config)
      invariant coords == ColumnMap(coords0, items[..k], x, step, lane, colId, svg.config)
    {
      var l := items[k];
      var a := svg.AddRect(x, nextY, svg.config.nodeW, svg.config.nodeH, l.fill, l.text, Sub(l.stride, l.channels), l.isConcat);
      coords := coords[l.idx := Placed(a.rect, lane, colId)];
      ColumnGrows(coords0, items, k, x, step, lane, colId, svg.config);
      nextY := nextY + step;
      k := k + 1;
    }
    assert items[..k] == items;
  }

  /** Placing a column adds exactly its nodes and keeps every other entry. */
  lemma {:induction false} ColumnMapDomain(coords0: Coords, items: seq<Layer>, x: real, step: real, lane: Lane, colId: int, g: Config)
    ensures ColumnMap(coords0, items, x, step, lane, colId, g).Keys == coords0.Keys + IdxSet(items)
    ensures forall i :: i in coords0 && i !in IdxSet(items) ==> ColumnMap(coords0, items, x, step, lane, colId, g)[i] == coords0[i]
    decreases |items|
  {
    if items != [] {
      var n := |items| - 1;
      ColumnMapDomain(coords0, items[..n], x, step, lane, colId, g);
      assert items == items[..n] + [items[n]];
      assert IdxSet(items) == IdxSet(items[..n]) + {items[n].idx};
    }
  }

  /** A prefix of an increasing sequence is increasing, its index set grows by
      the next index, which it does not already hold. */
  lemma IncreasingPrefix(items: seq<Layer>, n: nat)
    requires n < |items| && IdxIncreasing(items)
    ensures IdxIncreasing(items[..n])
    ensures forall j :: 0 <= j < n ==> items[..n][j] == items[j] && items[j].idx < items[n].idx
    ensures IdxSet(items[..n + 1]) == IdxSet(items[..n]) + {items[n].idx}
    ensures items[n].idx !in IdxSet(items[..n])
  {
    var init := items[..n];
    assert items[..n + 1] == init + [items[n]];
    forall l | l in init ensures l.idx < items[n].idx {
      var j :| 0 <= j < n && init[j] == l;
    }
  }

  /** With distinct indices, every node of the column keeps its own box. */
  lemma {:induction false} ColumnMapPlaces(coords0: Coords, items: seq<Layer>, x: real, step: real, lane: Lane, colId: int, g: Config)
    requires IdxIncreasing(items)
    ensures forall j :: 0 <= j < |items| ==>
              (items[j].idx in ColumnMap(coords0, items, x, step, lane, colId, g) &&
               ColumnMap(coords0, items, x, step, lane, colId, g)[items[j].idx] == Placed(StackRect(x, j, step, g), lane, colId))
    decreases |items|
  {
    if items != [] {
      var n := |items| - 1;
      var init := items[..n];
      IncreasingPrefix(items, n);
      ColumnMapPlaces(coords0, init, x, step, lane, colId, g);
      var before := ColumnMap(coords0, init, x, step, lane, colId, g);
      var after := ColumnMap(coords0, items, x, step, lane, colId, g);
      assert after == before[items[n].idx := Placed(StackRect(x, n, step, g), lane, colId)];
      assert items[..n + 1] == items;
      forall j | 0 <= j < |items|
        ensures items[j].idx in after && after[items[j].idx] == Placed(StackRect(x, j, step, g), lane, colId)
      {
        if j < n {
          assert init[j] == items[j];
        }
      }
    }
  }

  /** One more node adds its box at the next slot of the column. */
  lemma ColumnGrows(coords0: Coords, items: seq<Layer>, k: nat, x: real, step: real, lane: Lane, colId: int, g: Config)
    requires k < |items|
    ensures StackElements(items[..k + 1], x, step, g)
            == StackElements(items[..k], x, step, g) + NodeElements(items[k], StackRect(x, k, step, g))
    ensures ColumnMap(coords0, items[..k + 1], x, step, lane, colId, g)
            == ColumnMap(coords0, items[..k], x, step, lane, colId, g)[items[k].idx := Placed(StackRect(x, k, step, g), lane, colId)]
  {
    assert items[..k + 1][..k] == items[..k];
  }

  /** Left edge of the backbone boxes: centred in the backbone lane. */
  function BackboneX(g: Config): real {
    g.laneWidthBb / 2.0 - g.nodeW / 2.0
  }

  /** The bottom of the backbone column, `max_bb_y`. */
  function MaxBackboneY(count: nat, g: Config): real {
    StartY + Steps(count, g.bbStep) - g.bbStep + g.nodeH
  }

  /** Stage 2.1: the backbone column. */
  method PlaceBackbone(svg: SvgBuilder, items: seq<Layer>) returns (coords: Coords, maxBbY: real)
    modifies svg`elements
    ensures svg.elements == old(svg.elements) + StackElements(items, BackboneX(svg.config), svg.config.bbStep, svg.config)
    ensures coords == ColumnMap(map[], items, BackboneX(svg.config), svg.config.bbStep, Backbone, NoNeckColumn, svg.config)
    ensures maxBbY == MaxBackboneY(|items|, svg.config)
  {
    var currentY;
    coords, currentY := PlaceColumn(svg, items, BackboneX(svg.config), svg.config.bbStep, Backbone, NoNeckColumn, map[]);
    maxBbY := currentY - svg.config.bbStep + svg.config.nodeH;
  }

  /** The backbone column places exactly the backbone layers, the `k`-th
      one `k` backbone steps below the start. */
  lemma BackbonePlaces(items: seq<Layer>, g: Config)
    requires IdxIncreasing(items)
    ensures ColumnMap(map[], items, BackboneX(g), g.bbStep, Backbone, NoNeckColumn, g).Keys == IdxSet(items)
    ensures forall k :: 0 <= k < |items| ==>
              (items[k].idx in ColumnMap(map[], items, BackboneX(g), g.bbStep, Backbone, NoNeckColumn, g) &&
               ColumnMap(map[], items, BackboneX(g), g.bbStep, Backbone, NoNeckColumn, g)[items[k].idx]
                 == Placed(StackRect(BackboneX(g), k, g.bbStep, g), Backbone, NoNeckColumn))
  {
    ColumnMapDomain(map[], items, BackboneX(g), g.bbStep, Backbone, NoNeckColumn, g);
    ColumnMapPlaces(map[], items, BackboneX(g), g.bbStep, Backbone, NoNeckColumn, g);
  }

  lemma {:induction false} BackboneDescends(g: Config, j: nat, k: nat)
    requires g.bbStep > 0.0 && j < k
    ensures StackRect(BackboneX(g), j, g.bbStep, g).y < StackRect(BackboneX(g), k, g.bbStep, g).y
    ensures StackRect(BackboneX(g), j, g.bbStep, g).x == StackRect(BackboneX(g), k, g.bbStep, g).x
    decreases k
  {
    if j < k - 1 {
      BackboneDescends(g, j, k - 1);
    }
  }

  /** `max_bb_y` is the bottom edge of the last backbone box. */
  lemma MaxBackboneYIsLastBottom(count: nat, g: Config)
    requires count > 0
    ensures MaxBackboneY(count, g) == StackRect(BackboneX(g), count - 1, g.bbStep, g).y + g.nodeH
  {
  }

  // ---------------------------------------------------------- neck columns

  /** The state of the neck assignment loop: the sub-column chosen for each
      node so far, the y the node is drawn at, the current sub-column and cursor. */
  datatype NeckState = NeckState(cols: seq<nat>, ys: seq<real>, col: nat, cursor: real)

  /** The neck assignment loop after `n` nodes: before each node, if the
      cursor is below `limit` (`max_bb_y`) and fewer than two switches have
      happened, move to the next sub-column and reset the cursor. */
  function NeckRun(n: nat, limit: real, step: real): (s: NeckState)
    ensures |s.cols| == n && |s.ys| == n && s.col <= 2
    ensures n > 0 ==> s.cols[n - 1] == s.col
    decreases n
  {
    if n == 0 then NeckState([], [], 0, StartY)
    else
      var s := NeckRun(n - 1, limit, step);
      var switch := s.cursor > limit && s.col < 2;
      var col := if switch then s.col + 1 else s.col;
      var y := if switch then StartY else s.cursor;
      NeckState(s.cols + [col], s.ys + [y], col, y + step)
  }

  /** Sub-column indices never decrease, grow by at most one per node, and
      the first node goes to sub-column 0 or 1. */
  lemma {:induction false} NeckColumnsShape(n: nat, limit: real, step: real)
    ensures forall t :: 0 <= t < n ==> NeckRun(n, limit, step).cols[t] <= NeckRun(n, limit, step).col
    ensures forall t :: 0 < t < n ==>
              NeckRun(n, limit, step).cols[t - 1] <= NeckRun(n, limit, step).cols[t] <= NeckRun(n, limit, step).cols[t - 1] + 1
    ensures n > 0 ==> NeckRun(n, limit, step).cols[0] <= 1
    decreases n
  {
    if n > 0 {
      NeckColumnsShape(n - 1, limit, step);
      var p := NeckRun(n - 1, limit, step);
      var s := NeckRun(n, limit, step);
      assert forall t :: 0 <= t < n - 1 ==> s.cols[t] == p.cols[t];
    }
  }

  /** A switch to the next sub-column happens exactly when the cursor is past
      `limit` and the current sub-column is 0 or 1; otherwise the sub-column stays. */
  lemma NeckSwitchRule(n: nat, limit: real, step: real)
    requires n > 0
    ensures NeckRun(n, limit, step).col == NeckRun(n - 1, limit, step).col + 1
            <==> NeckRun(n - 1, limit, step).cursor > limit && NeckRun(n - 1, limit, step).col < 2
    ensures NeckRun(n, limit, step).col != NeckRun(n - 1, limit, step).col + 1
            ==> NeckRun(n, limit, step).col == NeckRun(n - 1, limit, step).col
  {
  }

  /** How many entries of `cols` equal `c`. */
  function Count(cols: seq<nat>, c: nat): nat
    decreases |cols|
  {
    if cols == [] then 0
    else Count(cols[..|cols| - 1], c) + (if cols[|cols| - 1] == c then 1 else 0)
  }

  /** No entry equal to `c` when every entry is below `c`. */
  lemma {:induction false} CountAbove(cols: seq<nat>, c: nat)
    requires forall t :: 0 <= t < |cols| ==> cols[t] < c
    ensures Count(cols, c) == 0
    decreases |cols|
  {
    if cols != [] {
      CountAbove(cols[..|cols| - 1], c);
    }
  }

  /** The cursor is the next free slot of the current sub-column: `step`
      times the number of nodes already in it below the start. */
  lemma {:induction false} NeckCursorSlot(n: nat, limit: real, step: real)
    ensures NeckRun(n, limit, step).cursor
            == StartY + Steps(Count(NeckRun(n, limit, step).cols, NeckRun(n, limit, step).col), step)
    decreases n
  {
    if n > 0 {
      NeckCursorSlot(n - 1, limit, step);
      if NeckRun(n, limit, step).col != NeckRun(n - 1, limit, step).col {
        CursorAfterSwitch(n, limit, step);
      } else {
        CursorWithoutSwitch(n, limit, step);
      }
    }
  }

  /** A switch puts the node at the first slot of the new sub-column. */
  lemma CursorAfterSwitch(n: nat, limit: real, step: real)
    requires n > 0 && NeckRun(n, limit, step).col != NeckRun(n - 1, limit, step).col
    ensures NeckRun(n, limit, step).cursor
            == StartY + Steps(Count(NeckRun(n, limit, step).cols, NeckRun(n, limit, step).col), step)
  {
    var p := NeckRun(n - 1, limit, step);
    var s := NeckRun(n, limit, step);
    NeckRunStep(n - 1, limit, step);
    CountSnoc(p.cols, s.col, s.col);
    NoneInNext(n, limit, step);
    SlotStep(p.cursor, Count(p.cols, p.col), Count(s.cols, s.col), step, true, s.cursor);
  }

  /** Without a switch the node takes the next slot of the same sub-column. */
  lemma CursorWithoutSwitch(n: nat, limit: real, step: real)
    requires n > 0 && NeckRun(n, limit, step).col == NeckRun(n - 1, limit, step).col
    requires NeckRun(n - 1, limit, step).cursor
             == StartY + Steps(Count(NeckRun(n - 1, limit, step).cols, NeckRun(n - 1, limit, step).col), step)
    ensures NeckRun(n, limit, step).cursor
            == StartY + Steps(Count(NeckRun(n, limit, step).cols, NeckRun(n, limit, step).col), step)
  {
    var p := NeckRun(n - 1, limit, step);
    var s := NeckRun(n, limit, step);
    NeckRunStep(n - 1, limit, step);
    CountSnoc(p.cols, s.col, s.col);
    SlotStep(p.cursor, Count(p.cols, p.col), Count(s.cols, s.col), step, false, s.cursor);
  }

  /** After a switch, no earlier node is in the new sub-column. */
  lemma NoneInNext(n: nat, limit: real, step: real)
    requires n > 0 && NeckRun(n, limit, step).col != NeckRun(n - 1, limit, step).col
    ensures Count(NeckRun(n - 1, limit, step).cols, NeckRun(n, limit, step).col) == 0
  {
    NeckColumnsShape(n - 1, limit, step);
    CountAbove(NeckRun(n - 1, limit, step).cols, NeckRun(n, limit, step).col);
  }

  /** The cursor arithmetic of one pass: a fresh sub-column holds one slot,
      otherwise the count grows by one. */
  lemma SlotStep(pc: real, pcount: nat, scount: nat, step: real, switch: bool, cursor: real)
    requires !switch ==> pc == StartY + Steps(pcount, step)
    requires switch ==> scount == 1
    requires !switch ==> scount == pcount + 1
    requires cursor == (if switch then StartY else pc) + step
    ensures cursor == StartY + Steps(scount, step)
  {
    assert Steps(scount, step) == Steps(scount - 1, step) + step;
    if switch {
      assert Steps(0, step) == 0.0;
    }
  }

  lemma CountSnoc(cols: seq<nat>, x: nat, c: nat)
    ensures Count(cols + [x], c) == Count(cols, c) + (if x == c then 1 else 0)
  {
    assert (cols + [x])[..|cols|] == cols;
  }

  /** The newest node is drawn at the slot of its sub-column given by the
      number of earlier nodes in that sub-column. */
  lemma NeckLastSlot(n: nat, limit: real, step: real)
    requires n > 0
    ensures NeckRun(n, limit, step).ys[n - 1]
            == StartY + Steps(Count(NeckRun(n, limit, step).cols[..n - 1], NeckRun(n, limit, step).col), step)
  {
    var p := NeckRun(n - 1, limit, step);
    var s := NeckRun(n, limit, step);
    NeckCursorSlot(n - 1, limit, step);
    assert s.cols[..n - 1] == p.cols;
    if s.col != p.col {
      NeckColumnsShape(n - 1, limit, step);
      CountAbove(p.cols, s.col);
    }
  }

  /** Node `t` is drawn at the slot of its sub-column given by the number of
      earlier nodes in that sub-column: exactly where the placement loop puts it. */
  lemma {:induction false} NeckSlots(n: nat, limit: real, step: real)
    ensures forall t :: 0 <= t < n ==>
              NeckRun(n, limit, step).ys[t]
              == StartY + Steps(Count(NeckRun(n, limit, step).cols[..t], NeckRun(n, limit, step).cols[t]), step)
    decreases n
  {
    if n > 0 {
      var p := NeckRun(n - 1, limit, step);
      var s := NeckRun(n, limit, step);
      NeckSlots(n - 1, limit, step);
      NeckLastSlot(n, limit, step);
      forall t | 0 <= t < n - 1
        ensures s.ys[t] == StartY + Steps(Count(s.cols[..t], s.cols[t]), step)
      {
        assert s.cols[..t] == p.cols[..t];
        assert s.cols[t] == p.cols[t] && s.ys[t] == p.ys[t];
      }
    }
  }

  /** In sub-columns 0 and 1 every node but the first of its sub-column is
      drawn no lower than `limit`; only sub-column 2 grows without bound. */
  lemma {:induction false} NeckColumnsBounded(n: nat, limit: real, step: real)
    ensures forall t :: 0 <= t < n && NeckRun(n, limit, step).cols[t] < 2 ==>
              NeckRun(n, limit, step).ys[t] <= limit || NeckRun(n, limit, step).ys[t] == StartY
    decreases n
  {
    if n > 0 {
      NeckColumnsBounded(n - 1, limit, step);
      var p := NeckRun(n - 1, limit, step);
      var s := NeckRun(n, limit, step);
      assert forall t :: 0 <= t < n - 1 ==> s.cols[t] == p.cols[t] && s.ys[t] == p.ys[t];
    }
  }

  /** When `limit` is at least the start y (a non-empty backbone with the
      default sizes), the first node goes to sub-column 0 and the occupied
      sub-columns are 0 up to the last one used. */
  lemma {:induction false} NeckColumnsPrefix(n: nat, limit: real, step: real)
    requires limit >= StartY && n > 0
    ensures NeckRun(n, limit, step).cols[0] == 0
    ensures forall c: nat :: c <= NeckRun(n, limit, step).col ==> c in NeckRun(n, limit, step).cols
    decreases n
  {
    var s := NeckRun(n, limit, step);
    if n == 1 {
      assert s.cols == [0];
    } else {
      NeckColumnsPrefix(n - 1, limit, step);
      var p := NeckRun(n - 1, limit, step);
      assert s.cols == p.cols + [s.col];
      assert s.cols[0] == p.cols[0];
      forall c: nat | c <= s.col ensures c in s.cols {
        if c <= p.col {
          assert c in p.cols;
        }
      }
    }
  }

  /** When `limit` is above the start y (an empty backbone with a node
      height below the backbone step), the first neck node already moves to
      sub-column 1 and the second to sub-column 2: sub-column 0 stays empty. */
  lemma NeckSkipsFirstColumn(limit: real, step: real)
    requires limit < StartY && step >= 0.0
    ensures NeckRun(1, limit, step).cols == [1]
    ensures NeckRun(2, limit, step).cols == [1, 2]
  {
    assert NeckRun(1, limit, step).cursor == StartY + step;
  }

  /** The items of `items` assigned to sub-column `c`, in order. */
  function Pick(items: seq<Layer>, assign: seq<nat>, c: nat): (r: seq<Layer>)
    requires |assign| == |items|
    ensures forall l :: l in r ==> exists t :: 0 <= t < |items| && items[t] == l && assign[t] == c
    decreases |items|
  {
    if items == [] then []
    else
      var n := |items| - 1;
      Pick(items[..n], assign[..n], c) + (if assign[n] == c then [items[n]] else [])
  }

  /** Each sub-column keeps the order of the neck. */
  lemma {:induction false} PickIncreasing(items: seq<Layer>, assign: seq<nat>, c: nat)
    requires |assign| == |items| && IdxIncreasing(items)
    ensures IdxIncreasing(Pick(items, assign, c))
    decreases |items|
  {
    if items != [] {
      var n := |items| - 1;
      IncreasingPrefix(items, n);
      PickIncreasing(items[..n], assign[..n], c);
      var init := Pick(items[..n], assign[..n], c);
      forall l | l in init ensures l.idx < items[n].idx {
        var t :| 0 <= t < n && items[..n][t] == l && assign[..n][t] == c;
      }
    }
  }

  /** No node is in two sub-columns. */
  lemma PickDisjoint(items: seq<Layer>, assign: seq<nat>, c: nat, d: nat)
    requires |assign| == |items| && IdxIncreasing(items) && c != d
    ensures IdxSet(Pick(items, assign, c)) !! IdxSet(Pick(items, assign, d))
  {
    forall i | i in IdxSet(Pick(items, assign, c)) ensures i !in IdxSet(Pick(items, assign, d)) {
      var l :| l in Pick(items, assign, c) && l.idx == i;
      var t :| 0 <= t < |items| && items[t] == l && assign[t] == c;
    }
  }

  /** One more item either joins sub-column `c` at its end or leaves it unchanged. */
  lemma PickStep(items: seq<Layer>, assign: seq<nat>, t: nat, c: nat)
    requires t < |items| && |assign| == t + 1
    ensures Pick(items[..t + 1], assign, c)
            == Pick(items[..t], assign[..t], c) + (if assign[t] == c then [items[t]] else [])
  {
    assert items[..t + 1][..t] == items[..t];
  }

  /** The neck split into its three sub-columns, switching once the cursor
      passes `limit`. */
  function NeckColumns(neck: seq<Layer>, limit: real, step: real): (cols: seq<seq<Layer>>)
    ensures |cols| == 3
  {
    var run := NeckRun(|neck|, limit, step).cols;
    [Pick(neck, run, 0), Pick(neck, run, 1), Pick(neck, run, 2)]
  }

  /** Three sub-columns that agree with `Pick` are `NeckColumns`. */
  lemma NeckColumnsOf(cols: seq<seq<Layer>>, items: seq<Layer>, limit: real, step: real)
    requires |cols| == 3
    requires forall c :: 0 <= c < 3 ==> cols[c] == Pick(items, NeckRun(|items|, limit, step).cols, c)
    ensures cols == NeckColumns(items, limit, step)
  {
    assert cols == [cols[0], cols[1], cols[2]];
  }

  /** Every item is in the sub-column it is assigned to. */
  lemma {:induction false} PickHas(items: seq<Layer>, assign: seq<nat>, t: nat)
    requires |assign| == |items| && t < |items|
    ensures items[t] in Pick(items, assign, assign[t])
    decreases |items|
  {
    var n := |items| - 1;
    if t < n {
      PickHas(items[..n], assign[..n], t);
    }
  }

  /** Dealt to three sub-columns, every item is in one of them. */
  lemma PickCovers(items: seq<Layer>, assign: seq<nat>)
    requires |assign| == |items|
    requires forall t :: 0 <= t < |assign| ==> assign[t] < 3
    ensures IdxSet(items) <= IdxSet(Pick(items, assign, 0)) + IdxSet(Pick(items, assign, 1)) + IdxSet(Pick(items, assign, 2))
  {
    forall i | i in IdxSet(items)
      ensures i in IdxSet(Pick(items, assign, 0)) + IdxSet(Pick(items, assign, 1)) + IdxSet(Pick(items, assign, 2))
    {
      var l :| l in items && l.idx == i;
      var t :| 0 <= t < |items| && items[t] == l;
      PickHas(items, assign, t);
      var c := assign[t];
      assert l in Pick(items, assign, c);
      if c == 0 {
        assert i in IdxSet(Pick(items, assign, 0));
      } else if c == 1 {
        assert i in IdxSet(Pick(items, assign, 1));
      } else {
        assert i in IdxSet(Pick(items, assign, 2));
      }
    }
  }

  /** A sub-column holds nothing but items. */
  lemma PickWithin(items: seq<Layer>, assign: seq<nat>, c: nat)
    requires |assign| == |items|
    ensures IdxSet(Pick(items, assign, c)) <= IdxSet(items)
  {
    forall i | i in IdxSet(Pick(items, assign, c)) ensures i in IdxSet(items) {
      var l :| l in Pick(items, assign, c) && l.idx == i;
    }
  }

  /** The three sub-columns hold exactly the neck. */
  lemma NeckColumnsCover(neck: seq<Layer>, limit: real, step: real)
    ensures IdxSet(NeckColumns(neck, limit, step)[0]) + IdxSet(NeckColumns(neck, limit, step)[1])
            + IdxSet(NeckColumns(neck, limit, step)[2]) == IdxSet(neck)
  {
    var run := NeckRun(|neck|, limit, step);
    NeckColumnsShape(|neck|, limit, step);
    PickCovers(neck, run.cols);
    PickWithin(neck, run.cols, 0);
    PickWithin(neck, run.cols, 1);
    PickWithin(neck, run.cols, 2);
  }

  /** A sub-column no item is assigned to is empty. */
  lemma PickUnused(items: seq<Layer>, assign: seq<nat>, c: nat)
    requires |assign| == |items|
    requires forall t :: 0 <= t < |assign| ==> assign[t] != c
    ensures Pick(items, assign, c) == []
  {
  }

  /** The rightmost occupied sub-column is the one the last item went to,
      when no item went further right. */
  lemma LastOccupiedPick(items: seq<Layer>, assign: seq<nat>, col: nat)
    requires |assign| == |items| && items != [] && col < 3
    requires assign[|items| - 1] == col
    requires forall t :: 0 <= t < |assign| ==> assign[t] <= col
    ensures LastOccupied([Pick(items, assign, 0), Pick(items, assign, 1), Pick(items, assign, 2)], 3) == col
  {
    var cols := [Pick(items, assign, 0), Pick(items, assign, 1), Pick(items, assign, 2)];
    PickHas(items, assign, |items| - 1);
    assert cols[col] != [];
    forall e | col < e < 3 ensures cols[e] == [] {
      PickUnused(items, assign, e);
    }
    LastOccupiedIsRightmost(cols, 3);
  }

  /** The neck lane ends at the right end of the last sub-column in use, the
      one the last neck node went to. */
  lemma NeckWidthFollowsLastColumn(neck: seq<Layer>, limit: real, step: real, g: Config)
    requires neck != []
    ensures NeckWidth(NeckColumns(neck, limit, step), 3, g)
              == NeckBase(NeckRun(|neck|, limit, step).col, g) + g.laneWidthNeckCol
  {
    NeckColumnsShape(|neck|, limit, step);
    LastOccupiedPick(neck, NeckRun(|neck|, limit, step).cols, NeckRun(|neck|, limit, step).col);
  }

  /** With no neck node, `actual_neck_width` stays 0. */
  lemma NeckWidthEmpty(limit: real, step: real, g: Config)
    ensures NeckWidth(NeckColumns([], limit, step), 3, g) == 0.0
  {
    assert NeckColumns([], limit, step) == [[], [], []];
  }

  /** Stage 2.2, the assignment loop: neck nodes are dealt to three
      sub-columns as `NeckRun` decides. */
  method AssignNeckColumns(items: seq<Layer>, limit: real, step: real) returns (cols: seq<seq<Layer>>)
    ensures |cols| == 3
    ensures forall c :: 0 <= c < 3 ==> cols[c] == Pick(items, NeckRun(|items|, limit, step).cols, c)
  {
    cols := [[], [], []];
    var cursor := StartY;
    var col: nat := 0;
    var t := 0;
    while t < |items|
      invariant 0 <= t <= |items| && |cols| == 3
      invariant col == NeckRun(t, limit, step).col && cursor == NeckRun(t, limit, step).cursor
      invariant forall c :: 0 <= c < 3 ==> cols[c] == Pick(items[..t], NeckRun(t, limit, step).cols, c)
    {
      ghost var col0, cursor0 := col, cursor;
      if cursor > limit && col < 2 {
        col := col + 1;
        cursor := StartY;
      }
      var next := cols[col := cols[col] + [items[t]]];
      cursor := cursor + step;
      DealInvariant(items, limit, step, t, cols, col0, cursor0, next, col, cursor);
      cols := next;
      t := t + 1;
    }
    assert items[..t] == items;
  }

  /** One pass of the assignment loop keeps its invariant. */
  lemma DealInvariant(items: seq<Layer>, limit: real, step: real, t: nat,
                      cols: seq<seq<Layer>>, col: nat, cursor: real, cols': seq<seq<Layer>>, col': nat, cursor': real)
    requires t < |items| && |cols| == 3
    requires col == NeckRun(t, limit, step).col && cursor == NeckRun(t, limit, step).cursor
    requires forall c :: 0 <= c < 3 ==> cols[c] == Pick(items[..t], NeckRun(t, limit, step).cols, c)
    requires col' == (if cursor > limit && col < 2 then col + 1 else col)
    requires cursor' == (if cursor > limit && col < 2 then StartY else cursor) + step
    requires col' < 3 && cols' == cols[col' := cols[col'] + [items[t]]]
    ensures col' == NeckRun(t + 1, limit, step).col && cursor' == NeckRun(t + 1, limit, step).cursor
    ensures forall c :: 0 <= c < 3 ==> cols'[c] == Pick(items[..t + 1], NeckRun(t + 1, limit, step).cols, c)
  {
    NeckRunStep(t, limit, step);
    DealStep(items, cols, NeckRun(t, limit, step).cols, t, col');
  }

  /** One pass of the assignment loop, as `NeckRun` states it. */
  lemma NeckRunStep(t: nat, limit: real, step: real)
    ensures var s, s' := NeckRun(t, limit, step), NeckRun(t + 1, limit, step);
            var col := if s.cursor > limit && s.col < 2 then s.col + 1 else s.col;
            && s'.cols == s.cols + [col] && s'.col == col
            && s'.cursor == (if s.cursor > limit && s.col < 2 then StartY else s.cursor) + step
  {
  }

  /** Appending node `t` to sub-column `col` keeps every sub-column the pick
      of the nodes so far. */
  lemma DealStep(items: seq<Layer>, cols: seq<seq<Layer>>, prev: seq<nat>, t: nat, col: nat)
    requires t < |items| && |prev| == t && |cols| == 3 && col < 3
    requires forall c :: 0 <= c < 3 ==> cols[c] == Pick(items[..t], prev, c)
    ensures forall c :: 0 <= c < 3 ==> Pick(items[..t + 1], prev + [col], c) == if c == col then cols[c] + [items[t]] else cols[c]
  {
    forall c | 0 <= c < 3 ensures Pick(items[..t + 1], prev + [col], c) == if c == col then cols[c] + [items[t]] else cols[c] {
      PickStep(items, prev + [col], t, c);
      assert (prev + [col])[..t] == prev;
    }
  }

  /** Left end of neck sub-column `c` (`base_x`). */
  function NeckBase(c: nat, g: Config): real {
    g.laneWidthBb + c as real * (g.laneWidthNeckCol + g.colGap)
  }

  /** Left edge of the boxes of neck sub-column `c`: centred in the sub-column. */
  function NeckX(c: nat, g: Config): real {
    NeckBase(c, g) + g.laneWidthNeckCol / 2.0 - g.nodeW / 2.0
  }

  /** The elements of neck sub-columns 0 to `c` - 1, left to right. */
  function NeckElements(cols: seq<seq<Layer>>, c: nat, g: Config): seq<Element>
    requires c <= |cols|
    decreases c
  {
    if c == 0 then []
    else NeckElements(cols, c - 1, g) + StackElements(cols[c - 1], NeckX(c - 1, g), g.neckStep, g)
  }

  /** The coordinates after placing neck sub-columns 0 to `c` - 1 over `coords0`. */
  function NeckMap(coords0: Coords, cols: seq<seq<Layer>>, c: nat, g: Config): Coords
    requires c <= |cols|
    decreases c
  {
    if c == 0 then coords0
    else ColumnMap(NeckMap(coords0, cols, c - 1, g), cols[c - 1], NeckX(c - 1, g), g.neckStep, Neck, c - 1, g)
  }

  /** The rightmost non-empty sub-column among the first `c`, or -1. */
  function LastOccupied(cols: seq<seq<Layer>>, c: nat): int
    requires c <= |cols|
    decreases c
  {
    if c == 0 then -1
    else if cols[c - 1] != [] then c - 1
    else LastOccupied(cols, c - 1)
  }

  lemma {:induction false} LastOccupiedIsRightmost(cols: seq<seq<Layer>>, c: nat)
    requires c <= |cols|
    ensures -1 <= LastOccupied(cols, c) < c
    ensures LastOccupied(cols, c) == -1 <==> forall d :: 0 <= d < c ==> cols[d] == []
    ensures LastOccupied(cols, c) >= 0 ==> cols[LastOccupied(cols, c)] != []
    ensures forall e :: LastOccupied(cols, c) < e < c ==> cols[e] == []
    decreases c
  {
    if c > 0 {
      LastOccupiedIsRightmost(cols, c - 1);
    }
  }

  /** `actual_neck_width` after sub-columns 0 to `c` - 1: the right end of
      the rightmost occupied one, 0 when they are all empty. */
  function NeckWidth(cols: seq<seq<Layer>>, c: nat, g: Config): real
    requires c <= |cols|
  {
    var d := LastOccupied(cols, c);
    if d < 0 then 0.0 else NeckBase(d, g) + g.laneWidthNeckCol
  }

  /** Stage 2.2, the placement loop: the boxes of each occupied sub-column,
      and `actual_neck_width`, the right end of the rightmost occupied one
      (0 when the neck is empty). */
  method PlaceNeck(svg: SvgBuilder, cols: seq<seq<Layer>>, coords0: Coords) returns (coords: Coords, neckWidth: real)
    requires |cols| == 3
    modifies svg`elements
    ensures svg.elements == old(svg.elements) + NeckElements(cols, 3, svg.config)
    ensures coords == NeckMap(coords0, cols, 3, svg.config)
    ensures neckWidth == NeckWidth(cols, 3, svg.config)
    ensures LastOccupied(cols, 3) == -1 <==> cols[0] == [] && cols[1] == [] && cols[2] == []
  {
    var g := svg.config;
    coords := coords0;
    neckWidth := 0.0;
    var c := 0;
    while c < 3
      invariant 0 <= c <= 3
      invariant svg.elements == old(svg.elements) + NeckElements(cols, c, g)
      invariant coords == NeckMap(coords0, cols, c, g)
      invariant neckWidth == NeckWidth(cols, c, g)
    {
      NeckLoopStep(coords0, cols, c, g);
      if cols[c] != [] {
        var baseX := NeckBase(c, g);
        var centerX := baseX + g.laneWidthNeckCol / 2.0;
        var nextY;
        ghost var before := svg.elements;
        coords, nextY := PlaceColumn(svg, cols[c], centerX - g.nodeW / 2.0, g.neckStep, Neck, c, coords);
        assert svg.elements == before + StackElements(cols[c], NeckX(c, g), g.neckStep, g);
        neckWidth := baseX + g.laneWidthNeckCol;
      }
      c := c + 1;
    }
    LastOccupiedIsRightmost(cols, 3);
  }

  /** One pass of the placement loop over sub-column `c`; an empty one adds
      nothing and leaves the width as it was. */
  lemma NeckLoopStep(coords0: Coords, cols: seq<seq<Layer>>, c: nat, g: Config)
    requires c < |cols|
    ensures NeckElements(cols, c + 1, g) == NeckElements(cols, c, g) + StackElements(cols[c], NeckX(c, g), g.neckStep, g)
    ensures NeckMap(coords0, cols, c + 1, g) == ColumnMap(NeckMap(coords0, cols, c, g), cols[c], NeckX(c, g), g.neckStep, Neck, c, g)
    ensures cols[c] == [] ==> StackElements(cols[c], NeckX(c, g), g.neckStep, g) == []
    ensures cols[c] == [] ==> NeckMap(coords0, cols, c + 1, g) == NeckMap(coords0, cols, c, g)
    ensures NeckWidth(cols, c + 1, g) == if cols[c] != [] then NeckBase(c, g) + g.laneWidthNeckCol else NeckWidth(cols, c, g)
  {
  }

  /** Placing the sub-columns adds exactly their nodes and keeps every other entry. */
  lemma NeckMapDomain(coords0: Coords, cols: seq<seq<Layer>>, g: Config)
    requires |cols| == 3
    ensures NeckMap(coords0, cols, 3, g).Keys == coords0.Keys + IdxSet(cols[0]) + IdxSet(cols[1]) + IdxSet(cols[2])
    ensures forall i :: i in coords0 && i !in IdxSet(cols[0]) + IdxSet(cols[1]) + IdxSet(cols[2]) ==>
              NeckMap(coords0, cols, 3, g)[i] == coords0[i]
  {
    var m1, m2 := NeckMap(coords0, cols, 1, g), NeckMap(coords0, cols, 2, g);
    ColumnMapDomain(coords0, cols[0], NeckX(0, g), g.neckStep, Neck, 0, g);
    ColumnMapDomain(m1, cols[1], NeckX(1, g), g.neckStep, Neck, 1, g);
    ColumnMapDomain(m2, cols[2], NeckX(2, g), g.neckStep, Neck, 2, g);
  }

  /** With each sub-column in neck order and no node in two of them, every
      neck node gets the box of its slot in its sub-column. */
  lemma NeckMapPlaces(coords0: Coords, cols: seq<seq<Layer>>, g: Config)
    requires |cols| == 3
    requires forall c :: 0 <= c < 3 ==> IdxIncreasing(cols[c])
    requires forall c, d :: 0 <= c < d < 3 ==> IdxSet(cols[c]) !! IdxSet(cols[d])
    ensures forall c, k :: 0 <= c < 3 && 0 <= k < |cols[c]| ==>
              (cols[c][k].idx in NeckMap(coords0, cols, 3, g) &&
               NeckMap(coords0, cols, 3, g)[cols[c][k].idx] == Placed(StackRect(NeckX(c, g), k, g.neckStep, g), Neck, c))
  {
    var m1, m2, m3 := NeckMap(coords0, cols, 1, g), NeckMap(coords0, cols, 2, g), NeckMap(coords0, cols, 3, g);
    ColumnMapPlaces(coords0, cols[0], NeckX(0, g), g.neckStep, Neck, 0, g);
    ColumnMapPlaces(m1, cols[1], NeckX(1, g), g.neckStep, Neck, 1, g);
    ColumnMapPlaces(m2, cols[2], NeckX(2, g), g.neckStep, Neck, 2, g);
    ColumnMapDomain(m1, cols[1], NeckX(1, g), g.neckStep, Neck, 1, g);
    ColumnMapDomain(m2, cols[2], NeckX(2, g), g.neckStep, Neck, 2, g);
    forall k | 0 <= k < |cols[0]|
      ensures cols[0][k].idx in m3 && m3[cols[0][k].idx] == Placed(StackRect(NeckX(0, g), k, g.neckStep, g), Neck, 0)
    {
      assert cols[0][k].idx in IdxSet(cols[0]);
    }
    forall k | 0 <= k < |cols[1]|
      ensures cols[1][k].idx in m3 && m3[cols[1][k].idx] == Placed(StackRect(NeckX(1, g), k, g.neckStep, g), Neck, 1)
    {
      assert cols[1][k].idx in IdxSet(cols[1]);
    }
  }



  // ------------------------------------------------------------------ head

  /** The top y of the sources of a head node that are already placed, in
      `from` order, repeats kept. */
  function SourceYs(from: seq<int>, coords: Coords): (ys: seq<real>)
    ensures |ys| <= |from|
    ensures ys == [] <==> forall s :: s in from ==> s !in coords
    decreases |from|
  {
    if from == [] then []
    else
      assert forall s :: s in from <==> s == from[0] || s in from[1..];
      (if from[0] in coords then [coords[from[0]].rect.y] else []) + SourceYs(from[1..], coords)
  }

  function Sum(ys: seq<real>): real
    decreases |ys|
  {
    if ys == [] then 0.0 else ys[0] + Sum(ys[1..])
  }

  /** The sum of values between `lo` and `hi` lies between `|ys|` times each. */
  lemma {:induction false} SumBounds(ys: seq<real>, lo: real, hi: real)
    requires forall y :: y in ys ==> lo <= y <= hi
    ensures Steps(|ys|, lo) <= Sum(ys) <= Steps(|ys|, hi)
    decreases |ys|
  {
    if ys != [] {
      assert forall y :: y in ys[1..] ==> y in ys;
      SumBounds(ys[1..], lo, hi);
      assert ys[0] in ys;
      assert Sum(ys) == ys[0] + Sum(ys[1..]);
      assert Steps(|ys|, lo) == Steps(|ys[1..]|, lo) + lo;
      assert Steps(|ys|, hi) == Steps(|ys[1..]|, hi) + hi;
    }
  }

  /** The top y of a head node: the mean of its placed sources, moved down
      to the cursor when it is above it; the cursor when no source is placed. */
  function HeadY(ys: seq<real>, cursor: real): (y: real)
    ensures y >= cursor
    ensures ys == [] ==> y == cursor
    ensures ys != [] && Mean(ys) >= cursor ==> y == Mean(ys)
    ensures ys != [] && Mean(ys) < cursor ==> y == cursor
  {
    var target := if ys != [] then Mean(ys) else cursor;
    if target < cursor then cursor else target
  }

  /** `sum(ys) / len(ys)`. */
  function Mean(ys: seq<real>): real
    requires ys != []
  {
    Sum(ys) / |ys| as real
  }

  /** A head node whose placed sources all lie at or below the cursor is
      drawn within the vertical range of those sources. */
  lemma HeadYWithinSources(ys: seq<real>, cursor: real, lo: real, hi: real)
    requires ys != [] && cursor <= lo
    requires forall y :: y in ys ==> lo <= y <= hi
    ensures lo <= HeadY(ys, cursor) <= hi
  {
    SumBounds(ys, lo, hi);
    StepsIsProduct(|ys|, lo);
    StepsIsProduct(|ys|, hi);
    var n := |ys| as real;
    assert n > 0.0;
    assert Sum(ys) / n >= lo by {
      assert Sum(ys) >= n * lo;
    }
    assert Sum(ys) / n <= hi by {
      assert Sum(ys) <= n * hi;
    }
  }

  /** The target y of the head loop: the mean of the placed sources' y, or
      the cursor when there is none, moved down to the cursor. `HeadY` is
      the same value as a function, for the specification and the lemmas;
      this method is the statement sequence of the source's loop body. */
  method HeadTarget(srcYs: seq<real>, cursor: real) returns (targetY: real)
    ensures targetY == HeadY(srcYs, cursor)
  {
    targetY := if |srcYs| > 0 then Sum(srcYs) / |srcYs| as real else cursor;
    if targetY < cursor {
      targetY := cursor;
    }
  }

  /** The state of the head loop: the coordinates so far, the y of each head
      node, and the cursor `head_curr_y`. */
  datatype HeadState = HeadState(coords: Coords, ys: seq<real>, cursor: real)

  /** The head loop over `items`, boxes at `x`: each node is drawn at `HeadY`
      of its placed sources (earlier head nodes included), and the cursor
      moves one neck step below it. */
  function HeadRun(items: seq<Layer>, coords0: Coords, x: real, g: Config): (s: HeadState)
    ensures |s.ys| == |items|
    decreases |items|
  {
    if items == [] then HeadState(coords0, [], StartY)
    else
      var n := |items| - 1;
      var p := HeadRun(items[..n], coords0, x, g);
      var y := HeadY(SourceYs(items[n].from, p.coords), p.cursor);
      HeadState(p.coords[items[n].idx := Placed(Rect(x, y, g.nodeW, g.nodeH), Head, HeadColumnId)], p.ys + [y], y + g.neckStep)
  }

  /** The elements of the head boxes, the `k`-th at height `ys[k]`. */
  function HeadElements(items: seq<Layer>, ys: seq<real>, x: real, g: Config): seq<Element>
    requires |ys| == |items|
    decreases |items|
  {
    if items == [] then []
    else
      var n := |items| - 1;
      HeadElements(items[..n], ys[..n], x, g) + NodeElements(items[n], Rect(x, ys[n], g.nodeW, g.nodeH))
  }

  /** Left edge of the head boxes: centred in the head lane that starts at `headStartX`. */
  function HeadX(headStartX: real, g: Config): real {
    headStartX + g.laneWidthHead / 2.0 - g.nodeW / 2.0
  }

  /** One more head node: drawn at `HeadY` of its placed sources, recorded,
      and the cursor moved below it. */
  lemma HeadGrows(items: seq<Layer>, coords0: Coords, k: nat, x: real, g: Config,
                  coords: Coords, ys: seq<real>, cursor: real, y: real)
    requires k < |items| && |ys| == k
    requires HeadRun(items[..k], coords0, x, g) == HeadState(coords, ys, cursor)
    requires y == HeadY(SourceYs(items[k].from, coords), cursor)
    ensures HeadRun(items[..k + 1], coords0, x, g)
              == HeadState(coords[items[k].idx := Placed(Rect(x, y, g.nodeW, g.nodeH), Head, HeadColumnId)], ys + [y], y + g.neckStep)
    ensures HeadElements(items[..k + 1], ys + [y], x, g)
              == HeadElements(items[..k], ys, x, g) + NodeElements(items[k], Rect(x, y, g.nodeW, g.nodeH))
  {
    assert items[..k + 1][..k] == items[..k];
    assert (ys + [y])[..k] == ys;
  }

  lemma AppendGrouped(pre: seq<Element>, a: seq<Element>, b: seq<Element>, ab: seq<Element>)
    requires ab == a + b
    ensures pre + a + b == pre + ab
  {
  }

  /** Stage 2.3: the head lane. */
  method PlaceHead(svg: SvgBuilder, items: seq<Layer>, coords0: Coords, headStartX: real) returns (coords: Coords)
    modifies svg`elements
    ensures coords == HeadRun(items, coords0, HeadX(headStartX, svg.config), svg.config).coords
    ensures svg.elements == old(svg.elements)
              + HeadElements(items, HeadRun(items, coords0, HeadX(headStartX, svg.config), svg.config).ys, HeadX(headStartX, svg.config), svg.config)
  {
    var g := svg.config;
    ghost var x := HeadX(headStartX, g);
    ghost var ys: seq<real> := [];
    coords := coords0;
    var cursor := StartY;
    var k := 0;
    while k < |items|
      invariant 0 <= k <= |items|
      invariant HeadRun(items[..k], coords0, x, g) == HeadState(coords, ys, cursor)
      invariant |ys| == k
      invariant svg.elements == old(svg.elements) + HeadElements(items[..k], ys, x, g)
    {
      var l := items[k];
      var centerX := headStartX + g.laneWidthHead / 2.0;
      var targetY := HeadTarget(SourceYs(l.from, coords), cursor);
      var boxX := centerX - g.nodeW / 2.0;
      assert boxX == x;
      ghost var before := svg.elements;
      var a := svg.AddRect(boxX, targetY, g.nodeW, g.nodeH, l.fill, l.text, Sub(l.stride, l.channels), l.isConcat);
      HeadGrows(items, coords0, k, x, g, coords, ys, cursor, targetY);
      AppendGrouped(old(svg.elements), HeadElements(items[..k], ys, x, g), NodeElements(l, Rect(x, targetY, g.nodeW, g.nodeH)),
                    HeadElements(items[..k + 1], ys + [targetY], x, g));
      assert svg.elements == before + NodeElements(l, Rect(x, targetY, g.nodeW, g.nodeH));
      coords := coords[l.idx := Placed(a.rect, Head, HeadColumnId)];
      cursor := targetY + g.neckStep;
      ys := ys + [targetY];
      k := k + 1;
    }
    assert items[..k] == items;
  }

  /** Head boxes go down the lane: each one at least one neck step below the
      previous one, and none above the start y. */
  lemma {:induction false} HeadDescends(items: seq<Layer>, coords0: Coords, x: real, g: Config)
    requires g.neckStep >= 0.0
    ensures forall k :: 0 <= k < |items| ==> HeadRun(items, coords0, x, g).ys[k] >= StartY
    ensures forall k :: 0 < k < |items| ==>
              HeadRun(items, coords0, x, g).ys[k] >= HeadRun(items, coords0, x, g).ys[k - 1] + g.neckStep
    ensures items != [] ==> HeadRun(items, coords0, x, g).cursor == HeadRun(items, coords0, x, g).ys[|items| - 1] + g.neckStep
    ensures items == [] ==> HeadRun(items, coords0, x, g).cursor == StartY
    decreases |items|
  {
    if items != [] {
      var n := |items| - 1;
      HeadDescends(items[..n], coords0, x, g);
      HeadRunLast(items, coords0, x, g);
      var p := HeadRun(items[..n], coords0, x, g);
      var s := HeadRun(items, coords0, x, g);
      forall k | 0 <= k < n
        ensures s.ys[k] == p.ys[k]
      {
      }
    }
  }

  /** The last step of the head loop: the earlier heights are kept, the new
      height is not above the cursor, and the cursor moves one step below it. */
  lemma HeadRunLast(items: seq<Layer>, coords0: Coords, x: real, g: Config)
    requires items != []
    ensures var p := HeadRun(items[..|items| - 1], coords0, x, g);
            var s := HeadRun(items, coords0, x, g);
            && s.ys == p.ys + [s.ys[|items| - 1]]
            && s.ys[|items| - 1] >= p.cursor
            && s.cursor == s.ys[|items| - 1] + g.neckStep
  {
  }

  /** The head loop adds exactly the head nodes to the coordinates and
      leaves every other node where it was. */
  lemma {:induction false} HeadRunDomain(items: seq<Layer>, coords0: Coords, x: real, g: Config)
    ensures HeadRun(items, coords0, x, g).coords.Keys == coords0.Keys + IdxSet(items)
    ensures forall i :: i in coords0 && i !in IdxSet(items) ==> HeadRun(items, coords0, x, g).coords[i] == coords0[i]
    decreases |items|
  {
    if items != [] {
      var n := |items| - 1;
      HeadRunDomain(items[..n], coords0, x, g);
      assert items == items[..n] + [items[n]];
      assert IdxSet(items) == IdxSet(items[..n]) + {items[n].idx};
    }
  }

  /** With distinct indices, every head node is recorded with the box at its
      own height, in the head column. */
  lemma {:induction false} HeadMapPlaces(items: seq<Layer>, coords0: Coords, x: real, g: Config)
    requires IdxIncreasing(items)
    ensures forall k :: 0 <= k < |items| ==>
              (items[k].idx in HeadRun(items, coords0, x, g).coords &&
               HeadRun(items, coords0, x, g).coords[items[k].idx]
                 == Placed(Rect(x, HeadRun(items, coords0, x, g).ys[k], g.nodeW, g.nodeH), Head, HeadColumnId))
    decreases |items|
  {
    if items != [] {
      var n := |items| - 1;
      var init := items[..n];
      IncreasingPrefix(items, n);
      HeadMapPlaces(init, coords0, x, g);
      var p := HeadRun(init, coords0, x, g);
      var s := HeadRun(items, coords0, x, g);
      var y := HeadY(SourceYs(items[n].from, p.coords), p.cursor);
      assert s.coords == p.coords[items[n].idx := Placed(Rect(x, y, g.nodeW, g.nodeH), Head, HeadColumnId)];
      assert s.ys == p.ys + [y];
      forall k | 0 <= k < |items|
        ensures items[k].idx in s.coords && s.coords[items[k].idx] == Placed(Rect(x, s.ys[k], g.nodeW, g.nodeH), Head, HeadColumnId)
      {
        if k < n {
          assert init[k] == items[k];
        }
      }
    }
  }
}
