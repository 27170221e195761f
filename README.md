# YAML2ModelGraph in Dafny

YAML2ModelGraph draws a YOLO-style model definition as a diagram with three
lanes (Backbone, Neck, Head). The definition is a `backbone` list and a `head`
list of `[from, n, module, args]` entries. The repository does this twice, and
a theme table configures the first:

- **SVG pipeline** (`parse_and_layout` and `SVGBuilder` in `yolo_graph.py`).
  - The parse loop resolves source references, carries a running stride and
    channel count, and picks each layer's lane, label and fill.
  - The backbone is laid out as one column.
  - The neck is laid out in up to three sub-columns, bounded by the height of
    the backbone.
  - Each head node sits at the mean height of its sources, clamped below a
    cursor.
  - Every edge between placed nodes gets a routing style, anchor points and a
    dashed flag.
  - The lane backgrounds go in front of the body.
- **Mermaid pipeline** (`make_divisible`, `parse_yaml_model` and `draw_mermaid`
  in `yml2modelgraph_mermaid.py`).
  - A channel list is simulated: concat sums its inputs, and other modules are
    rounded up to a multiple of 8 after the width multiplier.
  - Repeat counts are scaled.
  - The edge list is built, with negative sources meaning "previous node".
  - The Mermaid file is written as lines: three lane subgraphs, three
    invisible anchor nodes, the anchor links, the model edges, a `linkStyle`
    line that hides the anchor links, and the class definitions.
- **Theme merge** (`get_config` in `themes.py`). The chosen theme (Paper when
  the name is unknown) is overlaid on a copy of `DEFAULT_LAYOUT`. Colours and
  font are taken from the theme, gradients are merged, and the radius and
  per-type colours are filled in.

## Modules

| file | module | models |
|---|---|---|
| `text.dfy` | `Text` | The Python string operations the source uses: substring test, `replace`, ASCII `lower`, decimal `str` of an integer, `join`. |
| `values.dfy` | `Values` | The evaluated scalars of a YAML entry (int, float, other), and Python's `int()` on them. |
| `themes.dfy` | `Themes` | `DEFAULT_LAYOUT`, the theme registry as a map, `get_config` as a method with a loop, and `Merged`, the merged table stated key by key. |
| `svg_shapes.dfy` | `SvgShapes` | `SVGBuilder` as a class with an element list. Elements are records with real coordinates. Also the curve control points of `add_link`. |
| `yolo_parse.dfy` | `YoloParse` | The parse loop of `parse_and_layout`. |
| `yolo_layout.dfy` | `YoloLayout` | Placement of the backbone column, the neck sub-columns and the head lane, as methods that drive the builder. |
| `yolo_route.dfy` | `YoloRoute` | The edge-routing loop and its first-match rule table. |
| `yolo_graph.dfy` | `YoloGraph` | `parse_and_layout` end to end, plus the canvas size and the lane frames. |
| `mermaid_parse.dfy` | `MermaidParse` | `make_divisible`, the channel and repeat rules, labels, `parse_yaml_model` and its edge list. |
| `mermaid_draw.dfy` | `MermaidDraw` | `draw_mermaid`: lane partition, line emission and link indices. |

Each loop of the source is a `method` with a `while` loop, proved equal to a
specification function. The properties the source promises are proved as
lemmas about those functions.

### Edge cases of the code the model keeps

- **Empty backbone.** With an empty backbone, `max_bb_y` is
  `100 - bb_step + node_h`, which is below the neck's start height of 100. So
  the first neck node already moves to sub-column 1, and sub-column 0 stays
  empty. "Occupied sub-columns form a prefix" therefore holds only when that
  limit is at least 100 (`NeckColumnsPrefix`, `NeckSkipsFirstColumn`).
- **Empty neck.** When no layer is in the neck, `actual_neck_width` stays 0.
  The head lane then starts at x = 0 on top of the backbone lane, and the
  neck lane background gets a negative width (`EmptyNeckOverlapsBackbone`).
- **Oversized entries.** A Mermaid list entry with more than four items makes
  the tuple unpacking raise. The model returns `ok == false` for it rather
  than excluding it by a precondition (`ParseYamlModel`).
- **Skipped entries.**
  - In the Mermaid parse, a skipped entry advances the index, but adds no
    layer and appends nothing to `ch`. So `ch` is indexed by the number of
    layers kept, not by entry position (`RunChannels`).
  - `backbone_len` counts entries, but the Mermaid lanes slice the list of
    kept layers. A skipped backbone entry therefore moves the first head
    layer into the Backbone subgraph as well
    (`SkippedBackboneEntryShiftsLanes`).
- **Layer drawn twice.** When the backbone covers every layer, the last
  layer is drawn both in Backbone and in Head (`LastBackboneLayerIsHead`).
  The `head_idx >= 0` test holds whenever there is a layer, because indices
  are never negative.
- **Partial gradients.** Because `base["gradients"]` is overwritten by the
  theme's table before the merge, the default gradient keys do not fill gaps
  in a partial theme gradient table (`PartialGradientsNotFilled`).

## Model

| member | source | states |
|---|---|---|
| `Values.Trunc` | yolo_graph.py:153-154 | `int()` of a float truncates toward zero: it lies within 1 of its argument, on the side of zero. |
| `Text.AsciiLowerLowers` | yml2modelgraph_mermaid.py:39-41 | No capital letter remains in the lowered module name. Every other character is kept. Each capital becomes its lower-case letter (code + 32). Lowering twice gives the same name as lowering once. |
| `Text.ReplaceCharRemoves` | yml2modelgraph_mermaid.py:111 | Replacing a character by a different one removes every occurrence and keeps the length. |
| `Themes.Merged` | themes.py:249-273 | The merged configuration has exactly the keys of `DEFAULT_LAYOUT` plus `colors`, `font` and `type_colors`. |
| `Themes.GetConfig` | themes.py:247-273 | The config is the merge of the selected theme, with Paper's per-type colours as the fallback. An unknown name gives exactly Paper's merge. |
| `Themes.OverlayThenMerge` | themes.py:254-268 | The source's steps equal the key-by-key merge: the overlay loop on the copied defaults, then the `colors`/`font` assignment, the gradient merge and the `radius` choice. |
| `Themes.DefaultLayoutKeys` | themes.py:6-24 | The layout defaults and the theme-only keys are disjoint. The defaults hold `gradients` (flat white) and `radius`. |
| `Themes.DefaultKept` | themes.py:249-258 | A layout key the theme does not define keeps its default value. |
| `Themes.ThemeOverrides` | themes.py:254-256 | A layout key the theme defines takes the theme's value. |
| `Themes.RadiusChoice` | themes.py:267-268 | `radius` is the theme's value if present, else 0. |
| `Themes.ThemeStyleKeys` | themes.py:259-271 | `colors` and `font` come from the selected theme. `type_colors` comes from the theme when it has them, and from Paper otherwise. |
| `Themes.PartialGradientsNotFilled` | themes.py:254-265 | A default gradient key missing from a theme's gradient table is missing from the result. |
| `SvgShapes.AnchorsOnOutline` | yolo_graph.py:41-47 | The L, R, T and B anchors of a box lie on its outline, at the left, right, top and bottom edges. |
| `SvgShapes.LinkCurve` | yolo_graph.py:59-82 | The curve runs from p1 to p2. It is a straight segment exactly for vertical routing. Cubic control points keep the end heights. Detour control points lie right of both ends; `DetourRightOffset` gives their exact position. |
| `SvgShapes.DetourRightOffset` | yolo_graph.py:70-76 | A `detour_right` link has its control points exactly 60 to the right of each end, at the end heights. |
| `SvgShapes.ManhattanMidpoint` | yolo_graph.py:67-69 | Both Manhattan control points sit at the mid x. |
| `SvgShapes.ForwardStandardIsManhattan` | yolo_graph.py:77-82 | A standard link going right has the same control points as a Manhattan link. |
| `SvgShapes.BackwardStandardBulges` | yolo_graph.py:77-82 | A standard link going left bulges by half the horizontal distance beyond each end. |
| `SvgShapes.SvgBuilder.constructor` | yolo_graph.py:10-14 | A new builder has the given config, no elements and a zero size. |
| `SvgShapes.SvgBuilder.AddRect` | yolo_graph.py:28-47 | Returns the box and its four mid-edge anchors, and appends exactly the box, title and subtitle elements. |
| `SvgShapes.SvgBuilder.AddBgLane` | yolo_graph.py:49-57 | Puts the lane background at the front and appends the lane title. |
| `SvgShapes.SvgBuilder.AddLink` | yolo_graph.py:59-87 | Appends exactly one path element, with the curve for the routing and the dashed flag. |
| `SvgShapes.SvgBuilder.Generate` | yolo_graph.py:89-90 | The document has the builder's size, font, arrow colour and elements in order. |
| `YoloParse.Resolve` | yolo_graph.py:108-109 | A non-negative reference is kept. A negative reference `v` at index `i` becomes `i + v`. |
| `YoloParse.Parse` | yolo_graph.py:100-162 | One record per entry, each carrying the properties below. |
| `YoloParse.ParseEntry` | yolo_graph.py:105-160 | Given the stride and channel count left by the earlier entries, one loop pass builds exactly the record described for entry `i`: absolute sources, lane, label, fill, concat flag, truncated stride and channels. It also returns the running stride after the entry. |
| `YoloParse.StrideIsPowerOfTwo` | yolo_graph.py:112-119 | The running stride is always a power of two (the exponent may be negative), so it stays positive. |
| `YoloParse.ChannelsFromLastIntArg` | yolo_graph.py:111 | The channel count is the first argument of the latest entry whose first argument is an int, or 3 if there is none. No sums, no rounding. |
| `YoloParse.DisplayLabelIgnoresC2f` | yolo_graph.py:128-134 | The `C2f` to `C2f` replacement is a no-op. The label is the name without the namespace prefixes, or `Conv`. |
| `YoloLayout.OfLane` | yolo_graph.py:170 | Filtering by lane keeps exactly the layers of that lane, and keeps index order. |
| `YoloLayout.PlaceColumn` | yolo_graph.py:172-187 | Appends the column's boxes in order and records each placement. The cursor ends at 100 + count * step. |
| `YoloLayout.ColumnMapDomain` | yolo_graph.py:186 | The coordinate map gains exactly the column's indices. Other entries are unchanged. |
| `YoloLayout.ColumnMapPlaces` | yolo_graph.py:172-187 | The k-th node of a column is recorded at the k-th stacked slot. |
| `YoloLayout.PlaceBackbone` | yolo_graph.py:168-189 | Places the backbone column at the lane centre and returns `max_bb_y`. |
| `YoloLayout.BackbonePlaces` | yolo_graph.py:169-187 | Exactly the backbone layers are placed. The k-th is placed at y = 100 + k * bb_step. |
| `YoloLayout.BackboneDescends` | yolo_graph.py:173-187 | Backbone y strictly increases with position, at the same x. |
| `YoloLayout.MaxBackboneYIsLastBottom` | yolo_graph.py:189 | `max_bb_y` is the bottom edge of the last backbone box. |
| `YoloLayout.NeckRun` | yolo_graph.py:198-205 | The overflow loop assigns one sub-column per neck node and never goes beyond sub-column 2. |
| `YoloLayout.NeckColumnsShape` | yolo_graph.py:200-205 | The sub-column index never decreases and rises by at most one per node. |
| `YoloLayout.NeckSwitchRule` | yolo_graph.py:201-203 | The index moves on exactly when the cursor exceeds the limit and the index is below 2. Otherwise it stays. |
| `YoloLayout.NeckCursorSlot` | yolo_graph.py:200-205 | The cursor is 100 plus the step times the number of nodes already in the current sub-column. |
| `YoloLayout.NeckSlots` | yolo_graph.py:200-205 | The j-th node of a sub-column is at y = 100 + j * neck_step. |
| `YoloLayout.NeckColumnsBounded` | yolo_graph.py:200-205 | Outside the last sub-column, a node's y is at most the limit, or it is first in its sub-column (y = 100). |
| `YoloLayout.NeckColumnsPrefix` | yolo_graph.py:200-205 | When the limit is at least 100, the occupied sub-columns are 0 up to the last. |
| `YoloLayout.NeckSkipsFirstColumn` | yolo_graph.py:189-205 | When the limit is below 100 (empty backbone), neck nodes start in sub-column 1. |
| `YoloLayout.Pick` | yolo_graph.py:204 | A sub-column holds only nodes assigned to it. |
| `YoloLayout.NeckColumns` | yolo_graph.py:198 | There are always three sub-columns. |
| `YoloLayout.NeckColumnsCover` | yolo_graph.py:198-205 | The three sub-columns together hold exactly the neck nodes. |
| `YoloLayout.AssignNeckColumns` | yolo_graph.py:198-205 | The loop fills each sub-column with the nodes the overflow rule assigns to it. |
| `YoloLayout.LastOccupiedIsRightmost` | yolo_graph.py:208-233 | The width is set by the rightmost non-empty sub-column, or stays unset (-1) when all are empty. |
| `YoloLayout.NeckWidthFollowsLastColumn` | yolo_graph.py:207-233 | A non-empty neck is as wide as the base of the last sub-column used plus one sub-column width. |
| `YoloLayout.NeckWidthEmpty` | yolo_graph.py:207 | An empty neck has width 0. |
| `YoloLayout.PlaceNeck` | yolo_graph.py:207-233 | Appends the boxes of the three sub-columns in order, records their placements and returns the neck width. |
| `YoloLayout.NeckMapDomain` | yolo_graph.py:230 | The map gains exactly the neck indices. Other entries are unchanged. |
| `YoloLayout.NeckMapPlaces` | yolo_graph.py:208-231 | The k-th node of sub-column c is at that sub-column's x and at y = 100 + k * neck_step. |
| `YoloLayout.SourceYs` | yolo_graph.py:243 | Only placed sources contribute a height. The list is empty exactly when no source is placed. |
| `YoloLayout.HeadY` | yolo_graph.py:244-246 | The target is at least the cursor. It is the cursor when there are no sources, the mean when that is not above the cursor, and exactly the cursor when the mean is above it. |
| `YoloLayout.HeadYWithinSources` | yolo_graph.py:243-246 | With sources and a cursor above them, the target lies between the lowest and highest source heights. |
| `YoloLayout.HeadTarget` | yolo_graph.py:243-246 | The computed target equals the clamped mean. |
| `YoloLayout.HeadRun` | yolo_graph.py:240-261 | One height per head node. |
| `YoloLayout.PlaceHead` | yolo_graph.py:236-261 | Appends the head boxes in order and records their placements, as the head loop does. |
| `YoloLayout.HeadDescends` | yolo_graph.py:245-261 | Head heights are at least 100 and increase by at least `neck_step` per node. The cursor ends one step below the last node. |
| `YoloLayout.HeadRunDomain` | yolo_graph.py:240-261 | The map gains exactly the head indices. Every node already placed that is not a head node keeps its entry. |
| `YoloLayout.HeadMapPlaces` | yolo_graph.py:240-261 | With distinct indices, the `k`-th head node is recorded with the box at the `k`-th head height, at the head column x, with lane Head and column id 99. |
| `YoloRoute.RouteOf` | yolo_graph.py:273-312 | The routing style follows the first-match table (vertical, detour, Manhattan, standard). The anchor points match the style. Dashing is as in the source. |
| `YoloRoute.RouteOnBoxes` | yolo_graph.py:273-312 | Every route starts on the source box and ends on the destination box. A vertical route between aligned boxes is vertical. |
| `YoloRoute.NeighbourLinksSolid` | yolo_graph.py:281-287 | Adjacent backbone nodes, or adjacent nodes in the same neck sub-column, are linked vertically and solid. |
| `YoloRoute.LinksIntoSound` | yolo_graph.py:268-270 | Every link into a node comes from one of its placed sources. |
| `YoloRoute.LinksIntoComplete` | yolo_graph.py:268-270 | Every placed source of a node gets its link. |
| `YoloRoute.LinksSound` | yolo_graph.py:264-314 | Every link drawn belongs to a (layer, source) pair with both ends placed. |
| `YoloRoute.LinksComplete` | yolo_graph.py:264-314 | Every such pair is drawn. |
| `YoloRoute.RouteEdges` | yolo_graph.py:264-314 | The routing loop appends exactly the links, in layer and source order. |
| `YoloGraph.ParsedIncreasing` | yolo_graph.py:149-151 | Parsed layers are numbered by position, so their indices increase. |
| `YoloGraph.PlaceAll` | yolo_graph.py:164-261 | The three placement stages produce the specified placement. |
| `YoloGraph.AddLanes` | yolo_graph.py:317-341 | The canvas is `head_start_x + lane_width_head` wide and `max_bb_y + 50` tall. The backgrounds go in front in reverse order, and the titles after the body. |
| `YoloGraph.Draw` | yolo_graph.py:164-341 | A fresh builder ends with the framed placement. |
| `YoloGraph.ParseAndLayout` | yolo_graph.py:93-341 | The whole pipeline: parsed records, placement, links and frame. |
| `YoloGraph.AllLayersPlaced` | yolo_graph.py:168-261 | Every layer is placed, and no other index is. |
| `YoloGraph.BackboneKept` | yolo_graph.py:168-261 | After all three stages, the `k`-th backbone node still has the box of the `k`-th backbone slot. |
| `YoloGraph.NeckKept` | yolo_graph.py:191-261 | After the head stage, the `k`-th node of neck sub-column `c` still has the box of its slot in that sub-column. |
| `YoloGraph.HeadPlaced` | yolo_graph.py:236-261 | After all stages, the `k`-th head node has the box at its head height, centred in the head lane that starts where the neck ends. |
| `YoloGraph.HeadLaneAfterNeck` | yolo_graph.py:233-237 | With a neck, the head lane starts right after the last neck sub-column used. |
| `YoloGraph.EmptyNeckOverlapsBackbone` | yolo_graph.py:317-334 | With no neck, the head lane starts at 0 and the neck background has width `-lane_width_bb`. |
| `YoloGraph.EdgesDrawn` | yolo_graph.py:264-314 | A source reference is drawn exactly when it names a layer. References that name no layer draw nothing. |
| `MermaidParse.Ceil` | yml2modelgraph_mermaid.py:27 | `math.ceil` is the least integer not below x. |
| `MermaidParse.MakeDivisible` | yml2modelgraph_mermaid.py:24-27 | None maps to None. Otherwise the result is a multiple of the divisor, at least v and below v plus the divisor. |
| `MermaidParse.MakeDivisibleLeast` | yml2modelgraph_mermaid.py:24-27 | The result is at most any multiple of the divisor that is at least v, so it is the least one. |
| `MermaidParse.MakeDivisibleKeepsMultiples` | yml2modelgraph_mermaid.py:24-27 | A multiple of the divisor is returned unchanged. |
| `MermaidParse.RoundHalfEven` | yml2modelgraph_mermaid.py:95 | `round` is within 1/2, and ties go to the even neighbour. |
| `MermaidParse.RoundNearest` | yml2modelgraph_mermaid.py:95 | No integer is closer than the rounded value. |
| `MermaidParse.InChannels` | yml2modelgraph_mermaid.py:74-83 | Source s gives `ch[s+1]` when that is in range, and the last entry of `ch` otherwise (-1, other negatives, non-ints, out of range). |
| `MermaidParse.InputChannelsFromList` | yml2modelgraph_mermaid.py:73-83 | There is one input channel per source. Each one is an entry of `ch`. A source of -1 or a source that is not a number reads the last entry. A source `s` with `s + 1` inside the list reads `ch[s + 1]`. |
| `MermaidParse.ReadInputs` | yml2modelgraph_mermaid.py:73-83 | The loop builds exactly those input channels. |
| `MermaidParse.OutChannels` | yml2modelgraph_mermaid.py:86-94 | Concat sums its inputs. Detect keeps the base value. Anything else rounds base * gw up to a multiple of 8. |
| `MermaidParse.Repeats` | yml2modelgraph_mermaid.py:95 | A count of at most 1 is kept. A larger count becomes `round(n * gd)`, but at least 1. |
| `MermaidParse.LabelParts` | yml2modelgraph_mermaid.py:98-108 | The parts are never empty, start with the module name when names are shown, and fall back to the name alone. |
| `MermaidParse.LabelUnquoted` | yml2modelgraph_mermaid.py:111 | A label never contains a double quote. |
| `MermaidParse.NameOnlyLabel` | yml2modelgraph_mermaid.py:99-111 | With the configured fields (name only), the label is the module name with `"` replaced by `'`. |
| `MermaidParse.LayerOf` | yml2modelgraph_mermaid.py:62-121 | The layer keeps the entry index, its sources and its type. It is in the backbone group exactly when the index is below the backbone length. |
| `MermaidParse.Run` | yml2modelgraph_mermaid.py:59-122 | The channel list is never empty. |
| `MermaidParse.RunCounts` | yml2modelgraph_mermaid.py:56-122 | `ch` starts with the input channels and holds one more entry than there are layers. |
| `MermaidParse.RunRecorded` | yml2modelgraph_mermaid.py:59-121 | Every layer comes from a well-formed entry at its index, with that entry's sources, type and group. |
| `MermaidParse.RunOrdered` | yml2modelgraph_mermaid.py:59-121 | Layer indices strictly increase. |
| `MermaidParse.RunComplete` | yml2modelgraph_mermaid.py:59-121 | Every well-formed entry yields a layer. Only malformed entries are skipped. |
| `MermaidParse.RunChannels` | yml2modelgraph_mermaid.py:73-122 | The k-th layer's output channels are appended at `ch[k+1]`, computed from `ch[..k+1]`, so positions count kept layers. |
| `MermaidParse.RunAllKept` | yml2modelgraph_mermaid.py:59-121 | With no malformed entries, layer k has index k. |
| `MermaidParse.EdgesMembers` | yml2modelgraph_mermaid.py:125-133 | An edge is in the list exactly when it comes from some (layer, source) pair. |
| `MermaidParse.EdgesCount` | yml2modelgraph_mermaid.py:125-133 | There is one edge per (layer, source) pair. |
| `MermaidParse.EdgeEnds` | yml2modelgraph_mermaid.py:125-133 | Edge sources are at least -1, and targets are layer indices. |
| `MermaidParse.EdgesByTarget` | yml2modelgraph_mermaid.py:125-133 | Edges come in layer order: targets never decrease. |
| `MermaidParse.ListEdges` | yml2modelgraph_mermaid.py:125-133 | The nested loop builds exactly that edge list. |
| `MermaidParse.ReadRow` | yml2modelgraph_mermaid.py:62-121 | One kept row of the loop gives exactly the output channels that `OutOf` specifies and the record that `LayerOf` specifies, both read against the current channel list. |
| `MermaidParse.ParseYamlModel` | yml2modelgraph_mermaid.py:49-134 | It fails exactly on an oversized entry. The backbone length is the entry count. On success the layers are the parse run (name-only labels) and the edges are the edge list of those layers. |
| `MermaidDraw.BackboneNodes` | yml2modelgraph_mermaid.py:151 | The first `min(backbone_len, len)` layers. |
| `MermaidDraw.NeckNodes` | yml2modelgraph_mermaid.py:148 | Non-empty exactly when `backbone_len < len - 1`. It then holds the layers from `backbone_len` up to the last, excluded. |
| `MermaidDraw.AnchorFor` | yml2modelgraph_mermaid.py:178-184 | A lane gets one anchor link, to its first node, exactly when it is non-empty. |
| `MermaidDraw.UptoMembers` | yml2modelgraph_mermaid.py:198 | A link index is hidden exactly when it is below the number of anchor links. |
| `Text.NatTextValue` | yml2modelgraph_mermaid.py:198 | The decimal text of a link index denotes that index. |
| `Text.NatTextInjective` | yml2modelgraph_mermaid.py:198 | Two link indices have the same text exactly when they are equal. |
| `Text.IntTextValue` | yml2modelgraph_mermaid.py:163 | The text in a node name `L<idx>` denotes `idx`, after a minus sign when `idx` is negative. Distinct indices give distinct node names. |
| `MermaidDraw.MermaidLinks` | yml2modelgraph_mermaid.py:178-194 | The links of the file are the anchor links followed by the model edges. No other line is a link. |
| `MermaidDraw.LinkStyleHidesAnchors` | yml2modelgraph_mermaid.py:196-200 | The `linkStyle` line is written. Link i is hidden exactly when it is an anchor link. |
| `MermaidDraw.LinkStyleWritten` | yml2modelgraph_mermaid.py:197-200 | With anchors, the `linkStyle` line for `0..k-1` is in the file. |
| `MermaidDraw.AnchorsIffLayers` | yml2modelgraph_mermaid.py:147-184 | There are anchor links exactly when there are layers. |
| `MermaidDraw.NoLinkStyleWithoutLayers` | yml2modelgraph_mermaid.py:197-200 | With no layers there are no anchors and no `linkStyle` line. |
| `MermaidDraw.AnchorsOfLanes` | yml2modelgraph_mermaid.py:178-184 | Anchor Tk exists exactly when lane k is non-empty, and it links to that lane's first node. |
| `MermaidDraw.EveryLayerDrawn` | yml2modelgraph_mermaid.py:147-154 | Every layer is in the lane its position selects. |
| `MermaidDraw.LanesPartition` | yml2modelgraph_mermaid.py:147-154 | When the backbone is shorter than the layer list, the three lanes concatenate to the layer list. |
| `MermaidDraw.LastBackboneLayerIsHead` | yml2modelgraph_mermaid.py:147-154 | When the backbone covers every layer, the neck is empty and the last layer is in both Backbone and Head. |
| `MermaidDraw.LanesFollowGroups` | yml2modelgraph_mermaid.py:147-154 | With no skipped entries, a layer is in the Backbone lane exactly when its group is backbone. |
| `MermaidDraw.SkippedBackboneEntryShiftsLanes` | yml2modelgraph_mermaid.py:147-154 | A skipped backbone entry puts a head-group layer into the Backbone lane as well as the Head lane. |
| `MermaidDraw.AddGroup` | yml2modelgraph_mermaid.py:158-170 | The loop appends the subgraph header, the node lines and the closing lines. |
| `MermaidDraw.BuildAnchors` | yml2modelgraph_mermaid.py:178-184 | T1, T2 and T3 links to the first node of each non-empty lane, in that order. |
| `MermaidDraw.AddEdges` | yml2modelgraph_mermaid.py:190-194 | The loop appends one edge line per edge. |
| `MermaidDraw.HiddenLinks` | yml2modelgraph_mermaid.py:198 | The loop lists the indices 0 to k-1. |
| `MermaidDraw.DrawMermaid` | yml2modelgraph_mermaid.py:138-216 | The emitted lines are exactly the specified file: header, three subgraphs, anchors, anchor links, edges, `linkStyle` and class definitions. |

## Left out

- File and YAML I/O (`open`, `yaml.safe_load`, writing the `.svg`/`.mmd` file), `main.py` and the `main` function. The parsed backbone and head lists are inputs, and the outputs are the element and line sequences.
- `print` of the saved-file message. It is output only.
- `safe_eval` (Python `eval` on argument strings). Arguments are taken as already-evaluated scalars.
- `module_name_lower` on non-string module values (`__name__` reflection). Module names are strings.
- `Text.AsciiLower`: lowers ASCII letters only, because Python's Unicode case mapping is not modelled.
- Float formatting in f-strings and the exact SVG attribute text. SVG elements are records with real coordinates. Mermaid lines are records, with `MermaidDraw.Render` giving their text.
- `MermaidParse.MakeDivisible`, `MermaidParse.Repeats`, `YoloParse.Parse`: use exact real arithmetic. IEEE float rounding of `gw`, `gd` and the stride is not modelled.
- The `args` label field (`str(args)`, a Python list repr). It is off in the configured fields, and the label model has no `args` part.
- The nine theme colour tables and the `classDef` style strings are abstracted. The registry is a map argument, and the class definitions are fixed lines.
- `SvgShapes.SvgBuilder.Generate`: yields a document record (size, font, arrow colour, elements), not the header text of `get_header`.
- The SVG parse takes `from` as a list of integers. A non-integer source in the SVG pipeline (which would raise in Python) is not modelled.
- A Mermaid layer's `from` is taken as an already-made list of sources. yml2modelgraph_mermaid.py:63 turns a single int into a one-item list, a string into one source per character, and any other non-iterable value into a one-item list. None of these conversions is modelled: a single int source is written as a one-item list.
- The configuration that main.py:40-44 builds with `get_config` and gives to `parse_and_layout` is `Themes.Config`, a map from keys to values. The SVG pipeline in this model takes its configuration as a separate input record, `SvgShapes.Config`, with real-valued sizes and a colour map. No function converts the one into the other. Nothing proves that `GetConfig` supplies every key the builder reads, or that those values have the types the record gives them. The Mermaid pipeline uses no theme: its `classDef` lines are fixed.
