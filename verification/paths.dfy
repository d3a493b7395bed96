/** The path assembler: one line's outline placed by its metrics
    (`getD`), the lines stacked into one `<path>` element (`getPath`), and
    the two SVG documents (`getSVG`, `getDebugSVG`).

    Number-to-text conversion inside the templates is the parameter
    `fmt`; the outline text comes from the font's `pathData`. */
module Paths {
  import opened Wrappers
  import opened Strings
  import opened Fonts
  import opened Anchors
  import opened Metrics

  // ---------------------------------------------------------------------
  // Attributes

  /** One `key="value"` pair, the value inserted verbatim. */
  function AttributePair(kv: (string, string)): string {
    kv.0 + "=\"" + kv.1 + "\""
  }

  /** Every pair rendered, in key order. */
  function AttributePairs(attrs: seq<(string, string)>): (ps: seq<string>)
    ensures |ps| == |attrs|
    ensures forall i :: 0 <= i < |attrs| ==> ps[i] == AttributePair(attrs[i])
  {
    seq(|attrs|, i requires 0 <= i < |attrs| => AttributePair(attrs[i]))
  }

  /** The pairs joined by single spaces. It is empty exactly when there
      are no attributes, so the `if (attributes)` test of the library is a
      test for "some attribute given". */
  function AttributeString(attrs: seq<(string, string)>): (s: string)
    ensures s == "" <==> |attrs| == 0
  {
    var pairs := AttributePairs(attrs);
    assert |attrs| > 0 ==> |Join(pairs, " ")| >= |pairs[0]| > 0;
    Join(pairs, " ")
  }

  // ---------------------------------------------------------------------
  // One line

  /** The spacing options forwarded to the outline renderer: kerning as
      resolved (`'kerning' in options ? options.kerning : true`), letter
      spacing and tracking as given, absent ones left absent. */
  function RenderOptionsOf(o: TextOptions): RenderOptions {
    RenderOptions(KerningOf(o), o.letterSpacing, o.tracking)
  }

  /** The renderer's outline of `line` with its origin at `(x, baseline)`,
      drawn at the size and with the spacing options of `o`. */
  function Outline(font: Font, line: string, x: real, baseline: real, o: TextOptions): string {
    font.pathData(line, x, baseline, FontSizeOf(o), RenderOptionsOf(o))
  }

  /** `getD`: the outline of `line` with its origin at the line's anchored
      x and baseline. The outline is drawn at a box anchored at the
      origin `(x, y)` by the line's own width and one line height; with
      the default anchor (`left`, `baseline`) that is exactly `(x, y)`. */
  function GetD(font: Font, line: string, o: TextOptions): (r: Result<string, LayoutError>)
    ensures r.Success? <==> AnchorAccepted(AnchorText(o))
    ensures r.Failure? ==> r.error == UnknownAnchor(RejectedComponent(ParseAnchor(AnchorText(o))))
    ensures r.Success? ==> r.value == Outline(font, line,
      GetMetricsForLine(font, line, o).value.x, GetMetricsForLine(font, line, o).value.baseline, o)
    ensures r.Success? && ParseAnchor(AnchorText(o)) == Anchor("left", "baseline") ==>
      r.value == Outline(font, line, X0(o), Y0(o), o)
  {
    var metrics :- GetMetricsForLine(font, line, o);
    Success(Outline(font, line, metrics.x, metrics.baseline, o))
  }

  // ---------------------------------------------------------------------
  // Stacked lines

  /** How far line `k` is pushed down: `(options.fontSize || 72) * k`. */
  function LineShift(o: TextOptions, k: nat): real {
    FontSizeOf(o) * k as real
  }

  /** The options line `k` is rendered with: `{...options, y: (options.y
      ?? 0) + (options.fontSize || 72) * k}`. */
  function LineOptions(o: TextOptions, k: nat): TextOptions {
    MoveY(o, LineShift(o, k))
  }

  /** `d` is line `k` drawn where the line alone would be drawn, moved down
      by `k` font sizes: same x, baseline lower by the shift. */
  ghost predicate Stacked(font: Font, line: string, o: TextOptions, k: nat, d: string) {
    && GetMetricsForLine(font, line, o).Success?
    && var m := Translate(GetMetricsForLine(font, line, o).value, 0.0, LineShift(o, k));
      d == Outline(font, line, m.x, m.baseline, o)
  }

  /** The outline depends on its arguments only. Stated for named values
      so that equalities between coordinates carry over to the renderer's
      result. */
  lemma SameOutline(font: Font, line: string, x: real, x': real, b: real, b': real, o: TextOptions, o': TextOptions)
    requires x == x' && b == b'
    requires FontSizeOf(o) == FontSizeOf(o') && RenderOptionsOf(o) == RenderOptionsOf(o')
    ensures Outline(font, line, x, b, o) == Outline(font, line, x', b', o')
  {
  }

  /** `getD` in terms of given coordinates: when the line's metrics put it
      at `x` and `baseline`, the outline is drawn there. */
  lemma GetDAt(font: Font, line: string, o: TextOptions, o': TextOptions, x: real, baseline: real)
    requires GetMetricsForLine(font, line, o).Success?
    requires GetMetricsForLine(font, line, o).value.x == x
    requires GetMetricsForLine(font, line, o).value.baseline == baseline
    requires FontSizeOf(o) == FontSizeOf(o') && RenderOptionsOf(o) == RenderOptionsOf(o')
    ensures GetD(font, line, o) == Success(Outline(font, line, x, baseline, o'))
  {
  }

  /** Moving the origin down by `dy` moves a line's outline down by `dy`:
      same x, baseline lower by `dy`, same size and spacing. */
  lemma GetDFollowsY(font: Font, line: string, o: TextOptions, dy: real)
    requires AnchorAccepted(AnchorText(o))
    ensures GetMetricsForLine(font, line, o).Success?
    ensures var m := Translate(GetMetricsForLine(font, line, o).value, 0.0, dy);
      GetD(font, line, MoveY(o, dy)) == Success(Outline(font, line, m.x, m.baseline, o))
  {
    MetricsForLineFollowY(font, line, o, dy);
    var m := Translate(GetMetricsForLine(font, line, o).value, 0.0, dy);
    GetDAt(font, line, MoveY(o, dy), o, m.x, m.baseline);
  }

  /** Line `k`'s fragment is that line shifted down by `k` font sizes. */
  lemma LineFragmentStacked(font: Font, line: string, o: TextOptions, k: nat)
    requires GetD(font, line, LineOptions(o, k)).Success?
    ensures Stacked(font, line, o, k, GetD(font, line, LineOptions(o, k)).value)
  {
    GetDFollowsY(font, line, o, LineShift(o, k));
  }

  /** The fragments of `lines[i..]`, each line `k` rendered with
      `LineOptions(o, k)`; the first failure aborts, as a throw inside
      `forEach` does. */
  function LineFragments(font: Font, lines: seq<string>, o: TextOptions, i: nat): (r: Result<seq<string>, LayoutError>)
    requires i <= |lines|
    ensures r.Success? <==> i == |lines| || AnchorAccepted(AnchorText(o))
    ensures r.Success? ==> |r.value| == |lines| - i
    ensures r.Failure? ==> r.error == UnknownAnchor(RejectedComponent(ParseAnchor(AnchorText(o))))
    decreases |lines| - i
  {
    if i == |lines| then Success([])
    else
      assert AnchorText(LineOptions(o, i)) == AnchorText(o);
      var d :- GetD(font, lines[i], LineOptions(o, i));
      // The anchor was accepted for line `i`, so every later line is too.
      var rest := LineFragments(font, lines, o, i + 1).value;
      Success([d] + rest)
  }

  /** Fragment `n` of `lines[i..]` is line `j = i + n` stacked `j` font
      sizes down. */
  lemma {:induction false} LineFragmentStackedAt(font: Font, lines: seq<string>, o: TextOptions, i: nat, n: nat, j: nat)
    requires j == i + n < |lines|
    requires LineFragments(font, lines, o, i).Success?
    ensures Stacked(font, lines[j], o, j, LineFragments(font, lines, o, i).value[n])
    decreases n
  {
    var ds := LineFragments(font, lines, o, i).value;
    var d := GetD(font, lines[i], LineOptions(o, i)).value;
    var rest := LineFragments(font, lines, o, i + 1).value;
    assert ds == [d] + rest;
    if n == 0 {
      LineFragmentStacked(font, lines[i], o, i);
    } else {
      LineFragmentStackedAt(font, lines, o, i + 1, n - 1, j);
      assert ds[n] == rest[n - 1];
    }
  }

  /** The element around the joined path data: attributes first when
      there are any. */
  function PathElement(attributes: string, d: string): string {
    if attributes != "" then "<path " + attributes + " d=\"" + d + "\"/>"
    else "<path d=\"" + d + "\"/>"
  }

  /** `getPath`: one fragment per line of `text`, line `k` stacked `k`
      font sizes below the first, the fragments joined by single spaces
      inside one `<path>` element. */
  function GetPath(font: Font, text: string, o: TextOptions): (r: Result<string, LayoutError>)
    ensures r.Success? <==> AnchorAccepted(AnchorText(o))
    ensures r.Failure? ==> r.error == UnknownAnchor(RejectedComponent(ParseAnchor(AnchorText(o))))
    ensures r.Success? ==> LineFragments(font, Split(text, '\n'), o, 0).Success?
    ensures r.Success? && |o.attributes| == 0 ==>
      r.value == "<path d=\"" + Join(LineFragments(font, Split(text, '\n'), o, 0).value, " ") + "\"/>"
    ensures r.Success? && |o.attributes| > 0 ==>
      r.value == "<path " + AttributeString(o.attributes) + " d=\""
        + Join(LineFragments(font, Split(text, '\n'), o, 0).value, " ") + "\"/>"
  {
    var attributes := AttributeString(o.attributes);
    var ds :- LineFragments(font, Split(text, '\n'), o, 0);
    Success(PathElement(attributes, Join(ds, " ")))
  }

  /** `getPath` emits one fragment per line, that is one more than there
      are line breaks, and fragment `k` is line `k` of the text stacked
      `k` font sizes down. */
  lemma PathFragments(font: Font, text: string, o: TextOptions)
    requires AnchorAccepted(AnchorText(o))
    ensures var ds := LineFragments(font, Split(text, '\n'), o, 0).value;
      && |ds| == multiset(text)['\n'] + 1
      && forall k :: 0 <= k < |ds| ==> Stacked(font, Split(text, '\n')[k], o, k, ds[k])
  {
    SplitCount(text, '\n');
    var lines := Split(text, '\n');
    var ds := LineFragments(font, lines, o, 0).value;
    forall k | 0 <= k < |ds| ensures Stacked(font, lines[k], o, k, ds[k]) {
      LineFragmentStackedAt(font, lines, o, 0, k, k);
    }
  }

  /** A stacked fragment of a line whose own baseline is `y` sits on
      `y` plus the line's shift. */
  lemma StackedOnBaseline(font: Font, line: string, o: TextOptions, k: nat, d: string)
    requires Stacked(font, line, o, k, d)
    requires GetMetricsForLine(font, line, o).value.baseline == Y0(o)
    ensures d == Outline(font, line, GetMetricsForLine(font, line, o).value.x, Y0(o) + LineShift(o, k), o)
  {
    var m := GetMetricsForLine(font, line, o).value;
    var m' := Translate(m, 0.0, LineShift(o, k));
    assert d == Outline(font, line, m'.x, m'.baseline, o);
    assert m'.x == m.x && m'.baseline == Y0(o) + LineShift(o, k);
    SameOutline(font, line, m'.x, m.x, m'.baseline, Y0(o) + LineShift(o, k), o, o);
  }

  /** With a `baseline` anchor, line `k` sits on the baseline `y + k *
      fontSize`: lines are stacked at a fixed leading of one font size. */
  lemma BaselineRowsStack(font: Font, text: string, o: TextOptions, k: nat)
    requires AnchorAccepted(AnchorText(o))
    requires ParseAnchor(AnchorText(o)).vertical == "baseline"
    requires k < |Split(text, '\n')|
    ensures var line := Split(text, '\n')[k];
      LineFragments(font, Split(text, '\n'), o, 0).value[k]
        == Outline(font, line, GetMetricsForLine(font, line, o).value.x, Y0(o) + LineShift(o, k), o)
  {
    var lines := Split(text, '\n');
    var ds := LineFragments(font, lines, o, 0).value;
    LineFragmentStackedAt(font, lines, o, 0, k, k);
    StackedOnBaseline(font, lines[k], o, k, ds[k]);
  }

  /** Empty text still yields a path element: with the default options
      and a font that draws nothing for "", the result is `<path d=""/>`. */
  lemma EmptyTextPath(font: Font)
    requires font.pathData("", 0.0, 0.0, DefaultFontSize, RenderOptions(true, None, None)) == ""
    ensures GetPath(font, "", NoOptions) == Success("<path d=\"\"/>")
  {
    var o := NoOptions;
    var o0 := LineOptions(o, 0);
    EmptyAnchorDefaults();
    assert AnchorText(o0) == "";
    assert X0(o0) == 0.0 && Y0(o0) == 0.0;
    assert FontSizeOf(o) == DefaultFontSize && RenderOptionsOf(o) == RenderOptions(true, None, None);
    SameOutline(font, "", X0(o0), 0.0, Y0(o0), 0.0, o0, o);
    var d := GetD(font, "", o0).value;
    assert d == "";
    assert Split("", '\n') == [""];
    assert LineFragments(font, [""], o, 1) == Success([]);
    assert GetD(font, [""][0], LineOptions(o, 0)) == Success(d);
    assert [d] + [] == [d];
    assert LineFragments(font, [""], o, 0) == Success([d]);
    assert Join([d], " ") == d;
    assert AttributeString(o.attributes) == "";
    assert PathElement("", "") == "<path d=\"\"/>";
  }

  /** A single attribute is written once, before the path data. */
  lemma SingleAttributeScenario(font: Font, text: string)
    ensures var o := NoOptions.(attributes := [("fill", "red")]);
      GetPath(font, text, o).Success? &&
      GetPath(font, text, o).value
        == "<path fill=\"red\" d=\"" + Join(LineFragments(font, Split(text, '\n'), o, 0).value, " ") + "\"/>"
  {
    var o := NoOptions.(attributes := [("fill", "red")]);
    EmptyAnchorDefaults();
    assert AnchorText(o) == "";
    FillRed();
    var d := Join(LineFragments(font, Split(text, '\n'), o, 0).value, " ");
    assert "<path " + "fill=\"red\"" + " d=\"" + d + "\"/>" == "<path fill=\"red\" d=\"" + d + "\"/>";
  }

  /** `{fill: 'red'}` renders as `fill="red"`. */
  lemma FillRed()
    ensures AttributeString([("fill", "red")]) == "fill=\"red\""
  {
    assert AttributePair(("fill", "red")) == "fill=\"red\"";
    assert AttributePairs([("fill", "red")]) == ["fill=\"red\""];
  }

  // ---------------------------------------------------------------------
  // SVG documents

  /** The opening tag up to its width value: both namespaces, then
      `width="`. */
  const SvgStart: string :=
    "<svg xmlns=\"http://www.w3.org/2000/svg\" xmlns:xlink=\"http://www.w3.org/1999/xlink\" width=\""

  /** The opening `<svg>` tag with both namespaces and the given size. */
  function SvgOpen(fmt: real -> string, width: real, height: real): string {
    SvgStart + fmt(width) + "\" height=\"" + fmt(height) + "\">"
  }

  /** `getSVG`: the path of `getPath` in an `<svg>` as wide as the widest
      line and as high as all lines together. */
  function GetSVG(font: Font, fmt: real -> string, text: string, o: TextOptions): (r: Result<string, LayoutError>)
    ensures r.Success? <==> AnchorAccepted(AnchorText(o))
    ensures r.Failure? ==> r.error == UnknownAnchor(RejectedComponent(ParseAnchor(AnchorText(o))))
  {
    var metrics :- GetMetrics(font, text, o);
    // The anchor was accepted, so `getPath` cannot throw.
    var path := GetPath(font, text, o).value;
    Success(SvgOpen(fmt, metrics.width, metrics.height) + path + "</svg>")
  }

  /** The `<svg>` of `getSVG` wraps exactly the `getPath` element, and is
      as wide as the widest line and as high as all lines together. */
  lemma SvgWrapsPath(font: Font, fmt: real -> string, text: string, o: TextOptions)
    requires AnchorAccepted(AnchorText(o))
    ensures GetPath(font, text, o).Success?
    ensures exists w :: (IsWidest(font, Split(text, '\n'), o, w) &&
      GetSVG(font, fmt, text, o).value
        == SvgOpen(fmt, w, BlockHeight(font, |Split(text, '\n')|, FontSizeOf(o)))
          + GetPath(font, text, o).value + "</svg>")
  {
    var m := GetMetrics(font, text, o).value;
    assert IsWidest(font, Split(text, '\n'), o, m.width);
  }

  /** The debug viewport: a box holding both the origin and the text, and
      where the origin lands inside it. */
  datatype Frame = Frame(width: real, height: real, originX: real, originY: real)

  function Max(a: real, b: real): real {
    if a >= b then a else b
  }

  function Min(a: real, b: real): real {
    if a <= b then a else b
  }

  /** The box of `getDebugSVG`. It is never negative, the shifted origin
      lies inside it (so both axis lines do), and the text box moved by
      the origin shift lies inside it as well. */
  function DebugFrame(m: LineMetrics): (f: Frame)
    ensures 0.0 <= f.originX <= f.width
    ensures 0.0 <= f.originY <= f.height
    ensures 0.0 <= m.x + f.originX && m.x + f.originX + m.width <= f.width
    ensures 0.0 <= m.y + f.originY && m.y + f.originY + m.height <= f.height
  {
    var width := Max(m.x + m.width, 0.0) - Min(m.x, 0.0);
    var height := Max(m.y + m.height, 0.0) - Min(m.y, 0.0);
    Frame(width, height, width - Max(m.x + m.width, 0.0), height - Max(m.y + m.height, 0.0))
  }

  /** `options.x = options.x || 0; options.y = options.y || 0` on the
      private copy of the options. */
  function DebugOptions(o: TextOptions): TextOptions {
    o.(x := Some(X0(o)), y := Some(Y0(o)))
  }

  /** `options.x += origin.x; options.y += origin.y`. */
  function ShiftedOptions(o: TextOptions, f: Frame): TextOptions {
    MoveOrigin(o, f.originX, f.originY)
  }

  /** A red one-pixel unfilled path up to the first coordinate of its
      data: `... d="M`. */
  const AxisStart: string := "<path fill=\"none\" stroke=\"red\" stroke-width=\"1\" d=\"M"

  /** The red horizontal axis through the origin, across the whole box. */
  function XAxis(fmt: real -> string, f: Frame): string {
    AxisStart + "0," + fmt(f.originY)
      + "L" + fmt(f.width) + "," + fmt(f.originY) + "\"/>"
  }

  /** The red vertical axis through the origin, down the whole box. */
  function YAxis(fmt: real -> string, f: Frame): string {
    AxisStart + fmt(f.originX)
      + ",0L" + fmt(f.originX) + "," + fmt(f.height) + "\"/>"
  }

  /** `getDebugSVG`: the box and origin from the metrics, the two axes,
      then the text drawn with its origin shifted into the box. */
  function GetDebugSVG(font: Font, fmt: real -> string, text: string, o: TextOptions): (r: Result<string, LayoutError>)
    ensures r.Success? <==> AnchorAccepted(AnchorText(o))
    ensures r.Failure? ==> r.error == UnknownAnchor(RejectedComponent(ParseAnchor(AnchorText(o))))
  {
    var options := DebugOptions(o);
    var metrics :- GetMetrics(font, text, options);
    var f := DebugFrame(metrics);
    var shifted := ShiftedOptions(options, f);
    // The anchor was accepted, so `getPath` cannot throw.
    assert AnchorText(shifted) == AnchorText(options) == AnchorText(o);
    var path := GetPath(font, text, shifted).value;
    Success(SvgOpen(fmt, f.width, f.height) + XAxis(fmt, f) + YAxis(fmt, f) + path + "</svg>")
  }

  /** The document of `getDebugSVG` is sized by the debug frame of the
      measured block, draws the two axes through the frame's origin, and
      then wraps the `getPath` element of the text shifted by that origin. */
  lemma DebugSvgLayout(font: Font, fmt: real -> string, text: string, o: TextOptions)
    requires AnchorAccepted(AnchorText(o))
    ensures GetMetrics(font, text, DebugOptions(o)).Success?
    ensures var f := DebugFrame(GetMetrics(font, text, DebugOptions(o)).value);
      && GetPath(font, text, ShiftedOptions(DebugOptions(o), f)).Success?
      && GetDebugSVG(font, fmt, text, o).value
        == SvgOpen(fmt, f.width, f.height) + XAxis(fmt, f) + YAxis(fmt, f)
          + GetPath(font, text, ShiftedOptions(DebugOptions(o), f)).value + "</svg>"
  {
    var options := DebugOptions(o);
    assert AnchorText(options) == AnchorText(o);
    var f := DebugFrame(GetMetrics(font, text, options).value);
    assert AnchorText(ShiftedOptions(options, f)) == AnchorText(o);
  }

  /** Measuring the text again with the shifted origin puts its whole box
      inside the debug viewport, horizontally and vertically. */
  lemma DebugTextInsideBox(font: Font, text: string, o: TextOptions)
    requires AnchorAccepted(AnchorText(o))
    ensures var options := DebugOptions(o);
      var f := DebugFrame(GetMetrics(font, text, options).value);
      var m := GetMetrics(font, text, ShiftedOptions(options, f)).value;
      && 0.0 <= m.x && m.x + m.width <= f.width
      && 0.0 <= m.y && m.y + m.height <= f.height
  {
    var options := DebugOptions(o);
    var f := DebugFrame(GetMetrics(font, text, options).value);
    MetricsFollowOrigin(font, text, options, f.originX, f.originY);
  }
}
