/** yml2modelgraph_mermaid.py, parse_yaml_model: the layers of a YOLO model
    description, with the channel count each layer produces, and the list of
    its edges. */
module MermaidParse {
  import opened Values
  import opened Text

  /** Python's `math.ceil` on an exact real. */
  function Ceil(x: real): (c: int)
    ensures x <= c as real < x + 1.0
  {
    -((-x).Floor)
  }

  /** The default divisor of `make_divisible`. */
  const Divisor: nat := 8

  /** `make_divisible(v, divisor)`: `v` rounded up to a multiple of `divisor`,
      None for None. */
  function MakeDivisible(v: Option<real>, divisor: nat): (r: Option<int>)
    requires divisor > 0
    ensures r.None? <==> v.None?
    ensures v.Some? ==> r.value % divisor == 0
    ensures v.Some? ==> v.value <= r.value as real < v.value + divisor as real
  {
    match v
    case None => None
    case Some(x) =>
      var d := divisor as real;
      var q := Ceil(x / d);
      DivMul(x, d);
      ScaledUp(x, x / d, d, q as real);
      ScaledDown(x, x / d, d, q as real);
      IntToRealMul(q, divisor);
      MulMod(q, divisor);
      Some(q * divisor)
  }

  lemma DivMul(x: real, d: real)
    requires d > 0.0
    ensures (x / d) * d == x
  {
  }

  lemma MulMono(a: real, b: real, d: real)
    requires d > 0.0 && a <= b
    ensures a * d <= b * d
  {
    assert b * d - a * d == (b - a) * d;
  }

  lemma MulMonoStrict(a: real, b: real, d: real)
    requires d > 0.0 && a < b
    ensures a * d < b * d
  {
    assert b * d - a * d == (b - a) * d;
  }

  lemma ScaledUp(x: real, y: real, d: real, q: real)
    requires d > 0.0 && y * d == x && q < y + 1.0
    ensures q * d < x + d
  {
    MulMonoStrict(q, y + 1.0, d);
    assert q * d < (y + 1.0) * d;
    assert (y + 1.0) * d == y * d + d;
  }

  lemma ScaledDown(x: real, y: real, d: real, q: real)
    requires d > 0.0 && y * d == x && y <= q
    ensures x <= q * d
  {
    MulMono(y, q, d);
  }

  /** Converting an integer product to a real multiplies the converted factors. */
  lemma {:induction false} IntToRealMul(q: int, k: nat)
    ensures (q * k) as real == q as real * k as real
    decreases k
  {
    if k > 0 {
      IntToRealMul(q, k - 1);
      assert q * k == q * (k - 1) + q;
      assert q as real * k as real == q as real * (k - 1) as real + q as real;
    }
  }

  /** A multiple of `k` leaves no remainder. */
  lemma MulMod(q: int, k: nat)
    requires k > 0
    ensures (q * k) % k == 0
  {
    var m := (q * k) / k;
    var rem := (q * k) % k;
    assert q * k == m * k + rem;
    var t := q - m;
    assert t * k == rem by {
      assert t * k == q * k - m * k;
    }
  }

  /** Multiplying by a positive integer keeps the order of integers. */
  lemma IntMulMono(a: int, b: int, k: nat)
    requires k > 0 && a <= b
    ensures a * k <= b * k
  {
    assert b * k - a * k == (b - a) * k;
  }

  /** No smaller multiple of `divisor` lies at or above `v`: the result is the
      least multiple that is not below `v`. */
  lemma MakeDivisibleLeast(v: real, divisor: nat, k: int)
    requires divisor > 0 && v <= (k * divisor) as real
    ensures MakeDivisible(Some(v), divisor).value <= k * divisor
  {
    var r := MakeDivisible(Some(v), divisor).value;
    var q := Ceil(v / divisor as real);
    assert r == q * divisor;
    if q >= k + 1 {
      IntMulMono(k + 1, q, divisor);
      assert false;
    }
    IntMulMono(q, k, divisor);
  }

  /** A multiple of `divisor` is left as it is. */
  lemma MakeDivisibleKeepsMultiples(k: int, divisor: nat)
    requires divisor > 0
    ensures MakeDivisible(Some((k * divisor) as real), divisor) == Some(k * divisor)
  {
    MakeDivisibleLeast((k * divisor) as real, divisor, k);
  }

  /** Python's `round(x)` on a float: the nearest integer, ties to even. */
  function RoundHalfEven(x: real): (r: int)
    ensures x - 0.5 <= r as real <= x + 0.5
    ensures (r as real == x - 0.5 || r as real == x + 0.5) ==> r % 2 == 0
  {
    var f := x.Floor;
    var d := x - f as real;
    if d < 0.5 then f
    else if d > 0.5 then f + 1
    else if f % 2 == 0 then f
    else f + 1
  }

  /** No integer is nearer to `x` than `RoundHalfEven(x)`. */
  lemma RoundNearest(x: real, k: int)
    ensures Dist(RoundHalfEven(x) as real, x) <= Dist(k as real, x)
  {
    var f := x.Floor;
    var r := RoundHalfEven(x);
    assert r == f || r == f + 1;
    assert k <= f || k >= f + 1;
  }

  function Dist(a: real, b: real): real {
    if a >= b then a - b else b - a
  }

  /** Python's `int(src)` for a layer's source, -1 when the conversion raises. */
  function SourceInt(src: Scalar): (s: int)
    ensures ToInt(src).Some? ==> s == ToInt(src).value
    ensures ToInt(src).None? ==> s == -1
  {
    match ToInt(src)
    case Some(v) => v
    case None => -1
  }

  /** The channels read from the source `src` in the channel list `ch`, whose
      first entry is the input image and whose later entries follow the layers
      kept so far: the entry after position `s` for an in-range source `s`,
      and the last entry for -1, any other negative source, an out-of-range
      source or a source that is not a number. */
  function InChannels(src: Scalar, ch: seq<int>): (c: int)
    requires ch != []
    ensures c in ch
    ensures var s := SourceInt(src);
      c == (if 0 <= s && s + 1 < |ch| then ch[s + 1] else ch[|ch| - 1])
  {
    var s := SourceInt(src);
    if s == -1 then ch[|ch| - 1]
    else
      var mapped := s + 1;
      if 0 <= mapped < |ch| then ch[mapped] else ch[|ch| - 1]
  }

  /** `c1s`: the input channels of every source, in source order. */
  function InputChannels(from: seq<Scalar>, ch: seq<int>): (c1s: seq<int>)
    requires ch != []
    ensures |c1s| == |from|
    ensures forall k :: 0 <= k < |from| ==> c1s[k] == InChannels(from[k], ch)
  {
    seq(|from|, k requires 0 <= k < |from| => InChannels(from[k], ch))
  }

  /** Every input channel is one of the channel counts kept so far; a source
      of -1 or one that is not a number reads the most recent layer's count,
      and a source `s` inside the list reads the count after position `s`. */
  lemma InputChannelsFromList(from: seq<Scalar>, ch: seq<int>)
    requires ch != []
    ensures |InputChannels(from, ch)| == |from|
    ensures forall k :: 0 <= k < |from| ==> InputChannels(from, ch)[k] in ch
    ensures forall k :: 0 <= k < |from| && (ToInt(from[k]).None? || ToInt(from[k]) == Some(-1)) ==>
      InputChannels(from, ch)[k] == ch[|ch| - 1]
    ensures forall k :: 0 <= k < |from| && ToInt(from[k]).Some? && 0 <= ToInt(from[k]).value < |ch| - 1 ==>
      InputChannels(from, ch)[k] == ch[ToInt(from[k]).value + 1]
  {
    var c1s := InputChannels(from, ch);
    forall k | 0 <= k < |from| ensures c1s[k] in ch {
      assert c1s[k] == InChannels(from[k], ch);
    }
  }

  /** The loop that reads `c1s`. */
  method ReadInputs(from: seq<Scalar>, ch: seq<int>) returns (c1s: seq<int>)
    requires ch != []
    ensures c1s == InputChannels(from, ch)
  {
    c1s := [];
    var j := 0;
    while j < |from|
      invariant 0 <= j <= |from|
      invariant |c1s| == j
      invariant forall k :: 0 <= k < j ==> c1s[k] == InChannels(from[k], ch)
    {
      c1s := c1s + [InChannels(from[j], ch)];
      j := j + 1;
    }
  }

  function Sum(s: seq<int>): int
    decreases |s|
  {
    if s == [] then 0 else Sum(s[..|s| - 1]) + s[|s| - 1]
  }

  /** The channel count a layer would keep before scaling: its first argument
      when that is an integer, else the channels of its first source, else 0. */
  function BaseChannels(args: seq<Scalar>, c1s: seq<int>): (c: int)
    ensures args != [] && args[0].Int? ==> c == args[0].value
    ensures !(args != [] && args[0].Int?) && c1s != [] ==> c == c1s[0]
    ensures !(args != [] && args[0].Int?) && c1s == [] ==> c == 0
  {
    if args != [] && args[0].Int? then args[0].value
    else if c1s != [] then c1s[0] else 0
  }

  /** `c2`, the channels a layer produces: a concatenation sums its inputs;
      a detection layer keeps its base count; any other layer scales the base
      count by the width multiple and rounds it up to a multiple of 8. */
  function OutChannels(mname: string, args: seq<Scalar>, c1s: seq<int>, gw: real): (c2: int)
    ensures Contains(mname, "concat") ==> c2 == Sum(c1s)
    ensures !Contains(mname, "concat") && Contains(mname, "detect") ==> c2 == BaseChannels(args, c1s)
    ensures !Contains(mname, "concat") && !Contains(mname, "detect") ==>
              var scaled := BaseChannels(args, c1s) as real * gw;
              c2 % Divisor == 0 && scaled <= c2 as real < scaled + Divisor as real
  {
    if Contains(mname, "concat") then Sum(c1s)
    else
      var base := BaseChannels(args, c1s);
      if Contains(mname, "detect") then base
      else MakeDivisible(Some(base as real * gw), Divisor).value
  }

  /** `n_`: the repeat count scaled by the depth multiple. A count above 1 is
      scaled, rounded half to even and kept at least 1; a count of 1 or less
      (or an `n` that is not a number, read as 1) is left as it is. */
  /** Python's `int(n)` for a repeat count, 1 when the conversion raises. */
  function CountOf(n: Scalar): int {
    if ToInt(n).Some? then ToInt(n).value else 1
  }

  function Repeats(n: Scalar, gd: real): (r: int)
    ensures CountOf(n) <= 1 ==> r == CountOf(n)
    ensures CountOf(n) > 1 ==> r >= 1
    ensures CountOf(n) > 1 && r > 1 ==> r == RoundHalfEven(CountOf(n) as real * gd)
    ensures CountOf(n) > 1 && r == 1 ==> RoundHalfEven(CountOf(n) as real * gd) <= 1
  {
    if CountOf(n) > 1 then
      var scaled := RoundHalfEven(CountOf(n) as real * gd);
      if scaled >= 1 then scaled else 1
    else CountOf(n)
  }

  /** Which parts a node label shows. */
  datatype Fields = Fields(name: bool, channels: bool, repeats: bool)

  /** The label parts this module is configured with: the layer name only. */
  const ShowFields := Fields(true, false, false)

  /** The parts of a node label, in the order name, channels, repeats; the
      name alone when no part is shown. */
  function LabelParts(m: string, c1s: seq<int>, c2: int, n: int, show: Fields): (parts: seq<string>)
    ensures parts != []
    ensures show.name ==> parts[0] == m
    ensures !show.name && !show.channels && !show.repeats ==> parts == [m]
  {
    var parts := (if show.name then [m] else [])
      + (if show.channels then [IntText(Sum(c1s)) + "→" + IntText(c2)] else [])
      + (if show.repeats then ["n=" + IntText(n)] else []);
    if parts == [] then [m] else parts
  }

  /** A node label: its parts joined by `<br>`, with every double quote
      turned into a single quote. */
  function Label(m: string, c1s: seq<int>, c2: int, n: int, show: Fields): string {
    ReplaceAll(Join(LabelParts(m, c1s, c2, n, show), "<br>"), "\"", "'")
  }

  /** A label never holds a double quote, so it cannot close the quoted node
      text it is written into. */
  lemma LabelUnquoted(m: string, c1s: seq<int>, c2: int, n: int, show: Fields)
    ensures '"' !in Label(m, c1s, c2, n, show)
  {
    ReplaceCharRemoves(Join(LabelParts(m, c1s, c2, n, show), "<br>"), '"', '\'');
  }

  /** With the configured fields the label is the layer name with its double
      quotes turned into single quotes. */
  lemma NameOnlyLabel(m: string, c1s: seq<int>, c2: int, n: int)
    ensures Label(m, c1s, c2, n, ShowFields) == ReplaceAll(m, "\"", "'")
  {
    assert LabelParts(m, c1s, c2, n, ShowFields) == [m];
  }

  /** One entry of the `backbone` or `head` list. A list of four items
      `[from, n, module, args]` is a Row: `from` already as the list of its
      sources (a bare integer is the one-source list), the module as its name
      and `args` as the values the argument strings evaluate to. Anything that
      is not a list, or is a list of fewer than four items, is Skipped. A list
      of more than four items is Oversized: unpacking it raises. */
  datatype Entry =
    | Row(from: seq<Scalar>, n: Scalar, m: string, args: seq<Scalar>)
    | Skipped
    | Oversized

  /** The loaded model description; the multiples default to 1.0 and a
      missing or empty list is the empty sequence. */
  datatype YamlModel = YamlModel(depthMultiple: real, widthMultiple: real, backbone: seq<Entry>, head: seq<Entry>)

  datatype Group = BackboneGroup | HeadGroup

  /** One layer record: its position among the entries, its group, its
      sources, its label and its module name. */
  datatype MLayer = MLayer(idx: nat, group: Group, from: seq<Scalar>, caption: string, kind: string)

  /** The loop state: the channel list and the layers kept so far. */
  datatype ParseState = ParseState(ch: seq<int>, layers: seq<MLayer>)

  /** The channels the row `e` appends to the channel list `ch`. */
  function OutOf(ch: seq<int>, e: Entry, gw: real): int
    requires ch != [] && e.Row?
  {
    OutChannels(AsciiLower(e.m), e.args, InputChannels(e.from, ch), gw)
  }

  /** The record of the row `e` at position `i`, read against the channel list `ch`. */
  function LayerOf(ch: seq<int>, i: nat, e: Entry, backboneLen: nat, gd: real, gw: real, show: Fields): (l: MLayer)
    requires ch != [] && e.Row?
    ensures l.idx == i && l.from == e.from && l.kind == e.m
    ensures l.group == BackboneGroup <==> i < backboneLen
  {
    var c1s := InputChannels(e.from, ch);
    var c2 := OutChannels(AsciiLower(e.m), e.args, c1s, gw);
    MLayer(i, if i < backboneLen then BackboneGroup else HeadGroup, e.from,
           Label(e.m, c1s, c2, Repeats(e.n, gd), show), e.m)
  }

  /** The loop state after the given entries; only rows are kept. */
  function Run(entries: seq<Entry>, input: int, backboneLen: nat, gd: real, gw: real, show: Fields): (st: ParseState)
    ensures st.ch != []
    decreases |entries|
  {
    if entries == [] then ParseState([input], [])
    else
      var n := |entries| - 1;
      var st := Run(entries[..n], input, backboneLen, gd, gw, show);
      if entries[n].Row? then
        ParseState(st.ch + [OutOf(st.ch, entries[n], gw)], st.layers + [LayerOf(st.ch, n, entries[n], backboneLen, gd, gw, show)])
      else st
  }

  /** One more entry: a row extends the state by its channels and record,
      any other entry leaves it as it was. */
  lemma RunExtends(entries: seq<Entry>, i: nat, input: int, backboneLen: nat, gd: real, gw: real, show: Fields,
                    ch: seq<int>, layers: seq<MLayer>)
    requires i < |entries| && Run(entries[..i], input, backboneLen, gd, gw, show) == ParseState(ch, layers)
    ensures ch != []
    ensures entries[i].Row? ==>
              (Run(entries[..i + 1], input, backboneLen, gd, gw, show) ==
               ParseState(ch + [OutOf(ch, entries[i], gw)], layers + [LayerOf(ch, i, entries[i], backboneLen, gd, gw, show)]))
    ensures !entries[i].Row? ==> Run(entries[..i + 1], input, backboneLen, gd, gw, show) == ParseState(ch, layers)
  {
    assert entries[..i + 1][..i] == entries[..i];
  }

  predicate NoOversized(entries: seq<Entry>) {
    forall k :: 0 <= k < |entries| ==> !entries[k].Oversized?
  }

  lemma NoOversizedExtends(entries: seq<Entry>, i: nat)
    requires i < |entries| && NoOversized(entries[..i]) && !entries[i].Oversized?
    ensures NoOversized(entries[..i + 1])
  {
    assert forall k :: 0 <= k < i ==> entries[..i + 1][k] == entries[..i][k];
  }

  /** The layer `l` records the row at its position among `entries`: its
      sources, its module name and its group. */
  predicate Recorded(entries: seq<Entry>, l: MLayer, backboneLen: nat) {
    && l.idx < |entries| && entries[l.idx].Row?
    && l.from == entries[l.idx].from && l.kind == entries[l.idx].m
    && (l.group == BackboneGroup <==> l.idx < backboneLen)
  }

  /** The channel list holds the input channels followed by one entry per
      kept layer: a skipped entry appends nothing. */
  lemma {:induction false} RunCounts(entries: seq<Entry>, input: int, backboneLen: nat, gd: real, gw: real, show: Fields)
    ensures |Run(entries, input, backboneLen, gd, gw, show).ch| == |Run(entries, input, backboneLen, gd, gw, show).layers| + 1
    ensures Run(entries, input, backboneLen, gd, gw, show).ch[0] == input
    decreases |entries|
  {
    if entries != [] {
      RunCounts(entries[..|entries| - 1], input, backboneLen, gd, gw, show);
    }
  }

  /** Every layer records a row: its position, sources, module name and group. */
  lemma {:induction false} RunRecorded(entries: seq<Entry>, input: int, backboneLen: nat, gd: real, gw: real, show: Fields)
    ensures forall l :: l in Run(entries, input, backboneLen, gd, gw, show).layers ==> Recorded(entries, l, backboneLen)
    decreases |entries|
  {
    if entries != [] {
      var n := |entries| - 1;
      RunRecorded(entries[..n], input, backboneLen, gd, gw, show);
      var p := Run(entries[..n], input, backboneLen, gd, gw, show);
      var st := Run(entries, input, backboneLen, gd, gw, show);
      forall l | l in st.layers
        ensures Recorded(entries, l, backboneLen)
      {
        if l in p.layers {
          assert Recorded(entries[..n], l, backboneLen);
          assert entries[..n][l.idx] == entries[l.idx];
        }
      }
    }
  }

  /** The layer positions strictly increase along the list. */
  predicate Increasing(ls: seq<MLayer>) {
    forall a, b :: 0 <= a < b < |ls| ==> ls[a].idx < ls[b].idx
  }

  /** The layers follow the entry order. */
  lemma {:induction false} RunOrdered(entries: seq<Entry>, input: int, backboneLen: nat, gd: real, gw: real, show: Fields)
    ensures Increasing(Run(entries, input, backboneLen, gd, gw, show).layers)
    decreases |entries|
  {
    if entries != [] {
      var n := |entries| - 1;
      RunOrdered(entries[..n], input, backboneLen, gd, gw, show);
      RunRecorded(entries[..n], input, backboneLen, gd, gw, show);
      var p := Run(entries[..n], input, backboneLen, gd, gw, show);
      var st := Run(entries, input, backboneLen, gd, gw, show);
      forall a, b | 0 <= a < b < |st.layers|
        ensures st.layers[a].idx < st.layers[b].idx
      {
        assert st.layers[a] == p.layers[a];
        if b < |p.layers| {
          assert st.layers[b] == p.layers[b];
          assert p.layers[a].idx < p.layers[b].idx;
        } else {
          assert p.layers[a] in p.layers;
          assert p.layers[a].idx < n;
          assert st.layers[b].idx == n;
        }
      }
    }
  }

  /** Every row is recorded by some layer. */
  lemma {:induction false} RunComplete(entries: seq<Entry>, input: int, backboneLen: nat, gd: real, gw: real, show: Fields)
    ensures forall i :: 0 <= i < |entries| && entries[i].Row? ==>
              exists l :: l in Run(entries, input, backboneLen, gd, gw, show).layers && l.idx == i
    decreases |entries|
  {
    if entries != [] {
      var n := |entries| - 1;
      RunComplete(entries[..n], input, backboneLen, gd, gw, show);
      var p := Run(entries[..n], input, backboneLen, gd, gw, show);
      var st := Run(entries, input, backboneLen, gd, gw, show);
      forall i | 0 <= i < |entries| && entries[i].Row?
        ensures exists l :: l in st.layers && l.idx == i
      {
        if i < n {
          assert entries[..n][i] == entries[i];
          var l :| l in p.layers && l.idx == i;
          assert l in st.layers;
        } else {
          assert st.layers[|p.layers|].idx == i;
        }
      }
    }
  }

  /** Entry `k + 1` of the channel list belongs to the `k`-th kept layer: its
      output channels, read against the channel list built before it; and the
      layer's label is computed from those channels. */
  lemma {:induction false} RunChannels(entries: seq<Entry>, input: int, backboneLen: nat, gd: real, gw: real, show: Fields)
    ensures var st := Run(entries, input, backboneLen, gd, gw, show);
      |st.ch| == |st.layers| + 1 &&
      forall k :: 0 <= k < |st.layers| ==>
        st.layers[k].idx < |entries| && entries[st.layers[k].idx].Row? &&
        st.ch[k + 1] == OutOf(st.ch[..k + 1], entries[st.layers[k].idx], gw) &&
        st.layers[k] == LayerOf(st.ch[..k + 1], st.layers[k].idx, entries[st.layers[k].idx], backboneLen, gd, gw, show)
    decreases |entries|
  {
    RunCounts(entries, input, backboneLen, gd, gw, show);
    if entries != [] {
      var n := |entries| - 1;
      RunChannels(entries[..n], input, backboneLen, gd, gw, show);
      RunCounts(entries[..n], input, backboneLen, gd, gw, show);
      var p := Run(entries[..n], input, backboneLen, gd, gw, show);
      var st := Run(entries, input, backboneLen, gd, gw, show);
      if entries[n].Row? {
        var l := LayerOf(p.ch, n, entries[n], backboneLen, gd, gw, show);
        assert st.ch == p.ch + [OutOf(p.ch, entries[n], gw)];
        assert st.layers == p.layers + [l];
        forall k | 0 <= k < |st.layers|
          ensures st.layers[k].idx < |entries| && entries[st.layers[k].idx].Row? &&
            st.ch[k + 1] == OutOf(st.ch[..k + 1], entries[st.layers[k].idx], gw) &&
            st.layers[k] == LayerOf(st.ch[..k + 1], st.layers[k].idx, entries[st.layers[k].idx], backboneLen, gd, gw, show)
        {
          if k < |p.layers| {
            assert st.layers[k] == p.layers[k];
            assert st.ch[..k + 1] == p.ch[..k + 1];
            assert st.ch[k + 1] == p.ch[k + 1];
            assert entries[..n][p.layers[k].idx] == entries[p.layers[k].idx];
          } else {
            assert st.layers[k] == l;
            assert st.ch[..k + 1] == p.ch;
          }
        }
      } else {
        assert st == p;
        forall k | 0 <= k < |st.layers|
          ensures st.layers[k].idx < |entries| && entries[st.layers[k].idx].Row? &&
            st.ch[k + 1] == OutOf(st.ch[..k + 1], entries[st.layers[k].idx], gw) &&
            st.layers[k] == LayerOf(st.ch[..k + 1], st.layers[k].idx, entries[st.layers[k].idx], backboneLen, gd, gw, show)
        {
          assert entries[..n][p.layers[k].idx] == entries[p.layers[k].idx];
        }
      }
    }
  }

  /** When no entry is skipped, the `k`-th layer is the `k`-th entry, so a
      source `s` reads the channels that the layer at position `s` produced. */
  lemma {:induction false} RunAllKept(entries: seq<Entry>, input: int, backboneLen: nat, gd: real, gw: real, show: Fields)
    requires forall k :: 0 <= k < |entries| ==> entries[k].Row?
    ensures |Run(entries, input, backboneLen, gd, gw, show).layers| == |entries|
    ensures forall k :: 0 <= k < |entries| ==> Run(entries, input, backboneLen, gd, gw, show).layers[k].idx == k
    decreases |entries|
  {
    if entries != [] {
      var n := |entries| - 1;
      forall k | 0 <= k < n
        ensures entries[..n][k].Row?
      {
        assert entries[..n][k] == entries[k];
      }
      RunAllKept(entries[..n], input, backboneLen, gd, gw, show);
      var p := Run(entries[..n], input, backboneLen, gd, gw, show);
      var st := Run(entries, input, backboneLen, gd, gw, show);
      assert entries[n].Row?;
      var l := LayerOf(p.ch, n, entries[n], backboneLen, gd, gw, show);
      assert st.layers == p.layers + [l];
      forall k | 0 <= k < |entries|
        ensures st.layers[k].idx == k
      {
        if k < n {
          assert st.layers[k] == p.layers[k];
        } else {
          assert st.layers[k] == l;
        }
      }
    }
  }

  /** The source index of an edge into layer `dst`: the source itself when it
      is a non-negative integer, the previous layer position otherwise. */
  function SourceIndex(src: Scalar, dst: int): (s: int)
    ensures SourceInt(src) >= 0 ==> s == SourceInt(src)
    ensures SourceInt(src) < 0 ==> s == dst - 1
  {
    var si := SourceInt(src);
    if si >= 0 then si else dst - 1
  }

  /** The edges into one layer, one per source, in source order. */
  function EdgesInto(l: MLayer): (es: seq<(int, int)>)
    ensures |es| == |l.from|
    ensures forall j :: 0 <= j < |l.from| ==> es[j] == (SourceIndex(l.from[j], l.idx), l.idx)
  {
    seq(|l.from|, j requires 0 <= j < |l.from| => (SourceIndex(l.from[j], l.idx), l.idx))
  }

  /** The edge list: the edges into each layer, in layer order. */
  function Edges(layers: seq<MLayer>): seq<(int, int)>
    decreases |layers|
  {
    if layers == [] then [] else Edges(layers[..|layers| - 1]) + EdgesInto(layers[|layers| - 1])
  }

  /** An edge is in the list exactly when it joins some source of some layer
      to that layer. */
  lemma {:induction false} EdgesMembers(layers: seq<MLayer>, e: (int, int))
    ensures e in Edges(layers) <==>
              exists k, j :: 0 <= k < |layers| && 0 <= j < |layers[k].from| &&
                e == (SourceIndex(layers[k].from[j], layers[k].idx), layers[k].idx)
    decreases |layers|
  {
    if layers != [] {
      var n := |layers| - 1;
      EdgesMembers(layers[..n], e);
      if e in Edges(layers[..n]) {
        var k, j :| 0 <= k < n && 0 <= j < |layers[..n][k].from| &&
          e == (SourceIndex(layers[..n][k].from[j], layers[..n][k].idx), layers[..n][k].idx);
        assert layers[..n][k] == layers[k];
      } else if e in EdgesInto(layers[n]) {
        var j :| 0 <= j < |layers[n].from| && EdgesInto(layers[n])[j] == e;
      } else {
        forall k, j | 0 <= k < |layers| && 0 <= j < |layers[k].from|
          ensures e != (SourceIndex(layers[k].from[j], layers[k].idx), layers[k].idx)
        {
          if k < n {
            assert layers[..n][k] == layers[k];
          } else {
            assert EdgesInto(layers[n])[j] in EdgesInto(layers[n]);
          }
        }
      }
    }
  }

  /** The edge list holds as many edges as the layers have sources. */
  lemma {:induction false} EdgesCount(layers: seq<MLayer>)
    ensures |Edges(layers)| == SourceCount(layers)
    decreases |layers|
  {
    if layers != [] {
      EdgesCount(layers[..|layers| - 1]);
    }
  }

  function SourceCount(layers: seq<MLayer>): nat
    decreases |layers|
  {
    if layers == [] then 0 else SourceCount(layers[..|layers| - 1]) + |layers[|layers| - 1].from|
  }

  /** Every edge ends at a layer, and its source is -1 (the input image) or
      a position. */
  lemma {:induction false} EdgeEnds(layers: seq<MLayer>)
    ensures forall a :: 0 <= a < |Edges(layers)| ==>
              Edges(layers)[a].0 >= -1 && exists k :: 0 <= k < |layers| && layers[k].idx == Edges(layers)[a].1
    decreases |layers|
  {
    if layers != [] {
      var n := |layers| - 1;
      EdgeEnds(layers[..n]);
      var p := Edges(layers[..n]);
      var es := Edges(layers);
      forall a | 0 <= a < |es|
        ensures es[a].0 >= -1 && exists k :: 0 <= k < |layers| && layers[k].idx == es[a].1
      {
        if a < |p| {
          assert es[a] == p[a];
          var k :| 0 <= k < n && layers[..n][k].idx == p[a].1;
          assert layers[k] == layers[..n][k];
        } else {
          assert es[a] == EdgesInto(layers[n])[a - |p|];
          assert layers[n].idx == es[a].1;
        }
      }
    }
  }

  /** Over layers in increasing position order the edges are listed by
      increasing target. */
  lemma {:induction false} EdgesByTarget(layers: seq<MLayer>)
    requires Increasing(layers)
    ensures forall a, b :: 0 <= a < b < |Edges(layers)| ==> Edges(layers)[a].1 <= Edges(layers)[b].1
    decreases |layers|
  {
    if layers != [] {
      var n := |layers| - 1;
      EdgesByTarget(layers[..n]);
      EdgeEnds(layers[..n]);
      var p := Edges(layers[..n]);
      var es := Edges(layers);
      forall a | 0 <= a < |p|
        ensures es[a].1 < layers[n].idx
      {
        assert es[a] == p[a];
        var k :| 0 <= k < n && layers[..n][k].idx == p[a].1;
        assert layers[k] == layers[..n][k];
      }
      forall a, b | 0 <= a < b < |es|
        ensures es[a].1 <= es[b].1
      {
        if b < |p| {
          assert es[a] == p[a] && es[b] == p[b];
        } else {
          assert es[b] == EdgesInto(layers[n])[b - |p|];
          if a >= |p| {
            assert es[a] == EdgesInto(layers[n])[a - |p|];
          }
        }
      }
    }
  }

  /** The loop that lists the edges. */
  method ListEdges(layers: seq<MLayer>) returns (edges: seq<(int, int)>)
    ensures edges == Edges(layers)
  {
    edges := [];
    var i := 0;
    while i < |layers|
      invariant 0 <= i <= |layers|
      invariant edges == Edges(layers[..i])
    {
      var node := layers[i];
      var dst := node.idx;
      assert layers[..i + 1][..i] == layers[..i];
      var j := 0;
      while j < |node.from|
        invariant 0 <= j <= |node.from|
        invariant edges == Edges(layers[..i]) + EdgesInto(node)[..j]
      {
        var si := SourceInt(node.from[j]);
        var srcIdx := if si >= 0 then si else dst - 1;
        edges := edges + [(srcIdx, dst)];
        assert EdgesInto(node)[..j + 1] == EdgesInto(node)[..j] + [EdgesInto(node)[j]];
        j := j + 1;
      }
      assert EdgesInto(node)[..j] == EdgesInto(node);
      i := i + 1;
    }
    assert layers[..i] == layers;
  }

  /** One row of the loop: its input channels read from `ch`, its output
      channels and its record. `OutOf` and `LayerOf` give the same values as
      functions, for `Run` and its lemmas; this method computes them step by
      step as the source's loop body does, and its ensures ties the two. */
  method ReadRow(ch: seq<int>, i: nat, e: Entry, backboneLen: nat, gd: real, gw: real) returns (l: MLayer, c2: int)
    requires ch != [] && e.Row?
    ensures c2 == OutOf(ch, e, gw)
    ensures l == LayerOf(ch, i, e, backboneLen, gd, gw, ShowFields)
  {
    var c1s := ReadInputs(e.from, ch);
    var mname := AsciiLower(e.m);
    c2 := OutChannels(mname, e.args, c1s, gw);
    var n := Repeats(e.n, gd);
    var caption := Label(e.m, c1s, c2, n, ShowFields);
    var group := if i < backboneLen then BackboneGroup else HeadGroup;
    l := MLayer(i, group, e.from, caption, e.m);
  }

  /** `parse_yaml_model`: the layers, the edges and the backbone length. The
      call fails (`ok` false) exactly when some entry is a list of more than
      four items, which Python cannot unpack. */
  method ParseYamlModel(model: YamlModel, input: int) returns (ok: bool, layers: seq<MLayer>, edges: seq<(int, int)>, backboneLen: nat)
    ensures ok <==> NoOversized(model.backbone + model.head)
    ensures backboneLen == |model.backbone|
    ensures ok ==> layers == Run(model.backbone + model.head, input, |model.backbone|,
                                 model.depthMultiple, model.widthMultiple, ShowFields).layers
    ensures ok ==> edges == Edges(layers)
  {
    var gd := model.depthMultiple;
    var gw := model.widthMultiple;
    var entries := model.backbone + model.head;
    backboneLen := |model.backbone|;
    var ch := [input];
    layers := [];
    edges := [];
    var i := 0;
    while i < |entries|
      invariant 0 <= i <= |entries|
      invariant NoOversized(entries[..i])
      invariant Run(entries[..i], input, backboneLen, gd, gw, ShowFields) == ParseState(ch, layers)
    {
      var e := entries[i];
      if e.Oversized? {
        ok := false;
        return;
      }
      RunExtends(entries, i, input, backboneLen, gd, gw, ShowFields, ch, layers);
      if e.Row? {
        var l, c2 := ReadRow(ch, i, e, backboneLen, gd, gw);
        layers := layers + [l];
        ch := ch + [c2];
      }
      NoOversizedExtends(entries, i);
      i := i + 1;
    }
    assert entries[..i] == entries;
    ok := true;
    edges := ListEdges(layers);
  }
}
