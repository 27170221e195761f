/** yolo_graph.py, `parse_and_layout` stage 1: the parse loop. Each layer
    entry becomes a layer record with absolute source indices, a lane, a
    display label and fill colour, the running stride and a channel count. */
module YoloParse {
  import opened Values
  import opened Text

  /** One `[from, n, module, args]` entry of the backbone or head list, its
      `from` already a list of integers (`[f]` for a single integer). */
  datatype LayerSpec = LayerSpec(from: seq<int>, repeats: Scalar, kind: string, args: seq<Scalar>)

  /** Lane 0 (backbone), 1 (neck) or 2 (head). */
  datatype Lane = Backbone | Neck | Head

  /** The record the parse loop appends for each entry. */
  datatype Layer = Layer(
    idx: nat, text: string, stride: int, channels: int, lane: Lane,
    from: seq<int>, fill: string, isConcat: bool)

  /** The channel count before the first layer (`ch = [3]`). */
  const InputChannels: int := 3

  /** A source reference of the layer at index `i`: non-negative values are
      absolute, a negative value `v` means `i + v`. */
  function Resolve(i: nat, src: int): (r: int)
    ensures src >= 0 ==> r == src
    ensures src < 0 ==> r < i && r - i == src
  {
    if src >= 0 then src else i + src
  }

  /** The lane of the layer at index `i`: backbone before `backboneLen`, then
      head for a `Detect` module and neck for anything else. */
  function LaneOf(i: nat, backboneLen: nat, kind: string): Lane {
    if i < backboneLen then Backbone
    else if Contains(kind, "Detect") then Head
    else Neck
  }

  /** Some argument equals 2. */
  predicate HasTwo(args: seq<Scalar>) {
    exists k :: 0 <= k < |args| && IsTwo(args[k])
  }

  /** The stride after one layer: a `Conv` module with an argument equal to 2
      doubles it once, an `Upsample` module halves it, anything else keeps it. */
  function StrideStep(kind: string, args: seq<Scalar>, stride: real): real {
    if Contains(kind, "Conv") then (if HasTwo(args) then stride * 2.0 else stride)
    else if Contains(kind, "Upsample") then stride / 2.0
    else stride
  }

  /** The running stride after the given entries, starting from 1. */
  function StrideAfter(specs: seq<LayerSpec>): real
    decreases |specs|
  {
    if specs == [] then 1.0
    else
      var last := specs[|specs| - 1];
      StrideStep(last.kind, last.args, StrideAfter(specs[..|specs| - 1]))
  }

  /** The first argument is an integer. */
  predicate FirstArgIsInt(args: seq<Scalar>) {
    |args| > 0 && args[0].Int?
  }

  /** The channel count after the given entries: the first argument of the
      last entry whose first argument is an integer, or 3; no sums, no rounding. */
  function ChannelsAfter(specs: seq<LayerSpec>): int
    decreases |specs|
  {
    if specs == [] then InputChannels
    else
      var last := specs[|specs| - 1];
      if FirstArgIsInt(last.args) then last.args[0].value else ChannelsAfter(specs[..|specs| - 1])
  }

  /** The label shown for a module: namespace prefixes removed, and any name
      containing `Conv` shown as `Conv`. */
  function DisplayLabel(kind: string): string {
    var s := ReplaceAll(ReplaceAll(ReplaceAll(kind, "nn.modules.", ""), "ularytics.", ""), "C2f", "C2f");
    if Contains(s, "Conv") then "Conv" else s
  }

  /** The fill colour of a node: the concat colour for `Concat`, the upsample
      or detect colour when the theme has one, the node colour otherwise. */
  function FillOf(name: string, colors: map<string, string>): string
    requires "fill_node" in colors && "fill_concat" in colors
  {
    if Contains(name, "Concat") then colors["fill_concat"]
    else if Contains(name, "Upsample") && "fill_upsample" in colors then colors["fill_upsample"]
    else if Contains(name, "Detect") && "fill_detect" in colors then colors["fill_detect"]
    else colors["fill_node"]
  }

  /** `l` is the record the parse loop builds for entry `i` of `specs`. */
  ghost predicate Parsed(l: Layer, specs: seq<LayerSpec>, i: nat, backboneLen: nat, colors: map<string, string>)
    requires i < |specs| && "fill_node" in colors && "fill_concat" in colors
  {
    && l.idx == i
    && |l.from| == |specs[i].from|
    && (forall k :: 0 <= k < |specs[i].from| ==> l.from[k] == Resolve(i, specs[i].from[k]))
    && (l.lane == Backbone <==> i < backboneLen)
    && (l.lane == Head <==> i >= backboneLen && Contains(specs[i].kind, "Detect"))
    && l.stride == Trunc(StrideAfter(specs[..i + 1]))
    && l.channels == ChannelsAfter(specs[..i + 1])
    && l.text == DisplayLabel(specs[i].kind)
    && l.fill == FillOf(l.text, colors)
    && l.isConcat == Contains(l.text, "Concat")
  }

  /** The record built from the parts the loop computes is `Parsed`. */
  lemma ParsedOf(l: Layer, specs: seq<LayerSpec>, i: nat, backboneLen: nat, colors: map<string, string>)
    requires i < |specs| && "fill_node" in colors && "fill_concat" in colors
    requires l.idx == i && |l.from| == |specs[i].from|
    requires forall k :: 0 <= k < |specs[i].from| ==> l.from[k] == Resolve(i, specs[i].from[k])
    requires l.lane == LaneOf(i, backboneLen, specs[i].kind)
    requires l.stride == Trunc(StrideAfter(specs[..i + 1])) && l.channels == ChannelsAfter(specs[..i + 1])
    requires l.text == DisplayLabel(specs[i].kind)
    requires l.fill == FillOf(l.text, colors) && l.isConcat == Contains(l.text, "Concat")
    ensures Parsed(l, specs, i, backboneLen, colors)
  {
  }

  /** The parse loop of `parse_and_layout` over `backbone + head`. */
  method Parse(specs: seq<LayerSpec>, backboneLen: nat, colors: map<string, string>) returns (layers: seq<Layer>)
    requires "fill_node" in colors && "fill_concat" in colors
    ensures |layers| == |specs|
    ensures forall i :: 0 <= i < |layers| ==> Parsed(layers[i], specs, i, backboneLen, colors)
  {
    layers := [];
    var ch := [InputChannels];
    var stride := 1.0;
    var i := 0;
    while i < |specs|
      invariant 0 <= i <= |specs| && |layers| == i && |ch| == i + 1
      invariant stride == StrideAfter(specs[..i])
      invariant ch[i] == ChannelsAfter(specs[..i])
      invariant forall j :: 0 <= j < i ==> Parsed(layers[j], specs, j, backboneLen, colors)
    {
      var layer, next := ParseEntry(specs, i, stride, ch[|ch| - 1], backboneLen, colors);
      layers := layers + [layer];
      ch := ch + [layer.channels];
      stride := next;
      i := i + 1;
    }
  }

  /** One pass of the parse loop: the record for entry `i`, given the stride
      and channel count the entries before it left, and the new stride. */
  method ParseEntry(specs: seq<LayerSpec>, i: nat, stride: real, prevCh: int, backboneLen: nat, colors: map<string, string>)
    returns (layer: Layer, next: real)
    requires i < |specs| && "fill_node" in colors && "fill_concat" in colors
    requires stride == StrideAfter(specs[..i]) && prevCh == ChannelsAfter(specs[..i])
    ensures Parsed(layer, specs, i, backboneLen, colors)
    ensures next == StrideAfter(specs[..i + 1])
  {
    var spec := specs[i];
    var args := spec.args;
    var absFrom := seq(|spec.from|, k requires 0 <= k < |spec.from| => Resolve(i, spec.from[k]));

    var c2 := if |args| > 0 && args[0].Int? then args[0].value else prevCh;
    next := stride;
    if Contains(spec.kind, "Conv") {
      var j := 0;
      while j < |args|
        invariant 0 <= j <= |args|
        invariant next == stride
        invariant forall k :: 0 <= k < j ==> !IsTwo(args[k])
      {
        if IsTwo(args[j]) {
          next := next * 2.0;
          break;
        }
        j := j + 1;
      }
    } else if Contains(spec.kind, "Upsample") {
      next := next / 2.0;
    }

    var lane := Backbone;
    if i >= backboneLen {
      if Contains(spec.kind, "Detect") {
        lane := Head;
      } else {
        lane := Neck;
      }
    }

    var text := DisplayLabel(spec.kind);

    var fill := colors["fill_node"];
    var isConcat := false;
    if Contains(text, "Concat") {
      fill := colors["fill_concat"];
      isConcat := true;
    } else if Contains(text, "Upsample") && "fill_upsample" in colors {
      fill := colors["fill_upsample"];
    } else if Contains(text, "Detect") && "fill_detect" in colors {
      fill := colors["fill_detect"];
    }

    assert specs[..i + 1][..i] == specs[..i];
    assert next == StrideAfter(specs[..i + 1]);
    assert c2 == ChannelsAfter(specs[..i + 1]);
    layer := Layer(i, text, Trunc(next), c2, lane, absFrom, fill, isConcat);
    ParsedOf(layer, specs, i, backboneLen, colors);
  }

  /** 2 to the power `e`, for any integer `e`. */
  function Pow2(e: int): (r: real)
    ensures r > 0.0
    decreases if e >= 0 then e else -e
  {
    if e == 0 then 1.0 else if e > 0 then 2.0 * Pow2(e - 1) else Pow2(e + 1) / 2.0
  }

  lemma {:induction false} Pow2Succ(e: int)
    ensures Pow2(e + 1) == 2.0 * Pow2(e)
    decreases if e >= 0 then e else -e
  {
    if e < -1 {
      Pow2Succ(e + 1);
    }
  }

  /** Net number of doublings minus halvings over the entries. */
  function StrideExponent(specs: seq<LayerSpec>): int
    decreases |specs|
  {
    if specs == [] then 0
    else
      var last := specs[|specs| - 1];
      var e := StrideExponent(specs[..|specs| - 1]);
      if Contains(last.kind, "Conv") then (if HasTwo(last.args) then e + 1 else e)
      else if Contains(last.kind, "Upsample") then e - 1
      else e
  }

  /** The running stride is always a power of two, so positive: one factor 2
      per `Conv` with a 2 argument, one factor 1/2 per `Upsample`. */
  lemma {:induction false} StrideIsPowerOfTwo(specs: seq<LayerSpec>)
    ensures StrideAfter(specs) == Pow2(StrideExponent(specs))
    ensures StrideAfter(specs) > 0.0
    decreases |specs|
  {
    if specs != [] {
      var init := specs[..|specs| - 1];
      StrideIsPowerOfTwo(init);
      var e := StrideExponent(init);
      Pow2Succ(e);
      Pow2Succ(e - 1);
    }
  }

  /** The channel count is the first argument of the last entry whose first
      argument is an integer, and 3 when there is none. */
  lemma {:induction false} ChannelsFromLastIntArg(specs: seq<LayerSpec>)
    ensures (forall j :: 0 <= j < |specs| ==> !FirstArgIsInt(specs[j].args)) ==> ChannelsAfter(specs) == InputChannels
    ensures forall j :: 0 <= j < |specs| && FirstArgIsInt(specs[j].args)
                        && (forall k :: j < k < |specs| ==> !FirstArgIsInt(specs[k].args))
                        ==> ChannelsAfter(specs) == specs[j].args[0].value
    decreases |specs|
  {
    if specs != [] {
      var init := specs[..|specs| - 1];
      ChannelsFromLastIntArg(init);
      forall j | 0 <= j < |specs| && FirstArgIsInt(specs[j].args)
                 && (forall k :: j < k < |specs| ==> !FirstArgIsInt(specs[k].args))
        ensures ChannelsAfter(specs) == specs[j].args[0].value
      {
        if j < |specs| - 1 {
          assert !FirstArgIsInt(specs[|specs| - 1].args);
          assert init[j] == specs[j];
          assert forall k :: j < k < |init| ==> init[k] == specs[k];
        }
      }
      if forall j :: 0 <= j < |specs| ==> !FirstArgIsInt(specs[j].args) {
        assert forall j :: 0 <= j < |init| ==> init[j] == specs[j];
      }
    }
  }

  /** The third renaming step maps `C2f` to itself and changes nothing. */
  lemma DisplayLabelIgnoresC2f(kind: string)
    ensures DisplayLabel(kind) ==
      var s := ReplaceAll(ReplaceAll(kind, "nn.modules.", ""), "ularytics.", "");
      if Contains(s, "Conv") then "Conv" else s
  {
    ReplaceBySelf(ReplaceAll(ReplaceAll(kind, "nn.modules.", ""), "ularytics.", ""), "C2f");
  }
}
