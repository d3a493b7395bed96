/** The metrics engine: line width (advances, kerning, letter spacing or
    tracking), line height, and the anchor switch that turns an origin and
    a block size into the metrics record of `getMetrics` and
    `getMetricsForLine`. */
module Metrics {
  import opened Wrappers
  import opened Strings
  import opened Fonts
  import opened Anchors

  /** Metrics in pixels. `x`, `y` is the anchored top-left corner and
      `baseline` the y of the first baseline. */
  datatype LineMetrics = LineMetrics(
    x: real,
    y: real,
    baseline: real,
    width: real,
    height: real,
    ascender: real,
    descender: real)

  /** The only error the layout code throws. */
  datatype LayoutError = UnknownAnchor(option: string) {
    function Message(): string {
      "Unknown anchor option: " + option
    }
  }

  // ---------------------------------------------------------------------
  // Width

  /** A glyph's advance as the width loop uses it: a falsy advance adds 0. */
  function Advance(g: Glyph): real {
    if Truthy(g.advanceWidth) then g.advanceWidth.value else 0.0
  }

  /** Σ advance · scale over `gs`. */
  function AdvanceSum(gs: seq<Glyph>, scale: real): real {
    if |gs| == 0 then 0.0 else AdvanceSum(gs[..|gs| - 1], scale) + Advance(gs[|gs| - 1]) * scale
  }

  /** Σ kerning · scale over the adjacent pairs of `gs`. */
  function KernSum(font: Font, gs: seq<Glyph>, scale: real): real {
    if |gs| < 2 then 0.0
    else KernSum(font, gs[..|gs| - 1], scale) + font.kerningValue(gs[|gs| - 2], gs[|gs| - 1]) * scale
  }

  /** The per-glyph spacing addend, in pixels: letter spacing wins over
      tracking, and each counts only when truthy. */
  function Spacing(o: TextOptions, fontSize: real): real {
    if Truthy(o.letterSpacing) then o.letterSpacing.value * fontSize
    else if Truthy(o.tracking) then (o.tracking.value / 1000.0) * fontSize
    else 0.0
  }

  /** The width of one run of text in closed form: scaled advances, plus
      the scaled kerning of every adjacent pair when kerning is on, plus
      one spacing addend per glyph (the last one included). */
  function Width(font: Font, text: string, o: TextOptions): real {
    var fontSize := FontSizeOf(o);
    var scale := FontScale(font, fontSize);
    var glyphs := font.stringToGlyphs(text);
    AdvanceSum(glyphs, scale)
      + (if KerningOf(o) then KernSum(font, glyphs, scale) else 0.0)
      + |glyphs| as real * Spacing(o, fontSize)
  }

  /** How many glyphs' kerning pairs the width loop has added after `i`
      steps over `n` glyphs, as a prefix length. */
  function KernedPrefix(i: nat, n: nat): nat
    requires i <= n
  {
    if i < n then i + 1 else n
  }

  /** The width loop's running total after `i` of the glyphs `gs`: the
      first `i` advances, the kerning pairs added so far, `i` spacing
      addends. */
  function PartialWidth(font: Font, gs: seq<Glyph>, i: nat, kerning: bool, scale: real, spacing: real): real
    requires i <= |gs|
  {
    AdvanceSum(gs[..i], scale)
      + (if kerning then KernSum(font, gs[..KernedPrefix(i, |gs|)], scale) else 0.0)
      + i as real * spacing
  }

  /** `getWidth`: the library's loop, one glyph at a time, adding the scaled
      advance when truthy, the scaled kerning with the next glyph when
      kerning is on, and the spacing addend. It computes the closed form. */
  method GetWidth(font: Font, text: string, o: TextOptions) returns (width: real)
    ensures width == Width(font, text, o)
  {
    var fontSize := FontSizeOf(o);
    var kerning := KerningOf(o);
    var fontScale := FontScale(font, fontSize);
    width := 0.0;
    var glyphs := font.stringToGlyphs(text);
    var i := 0;
    while i < |glyphs|
      invariant 0 <= i <= |glyphs|
      invariant width == PartialWidth(font, glyphs, i, kerning, fontScale, Spacing(o, fontSize))
    {
      width := AddGlyph(font, glyphs, i, o, kerning, fontScale, fontSize, width);
      PartialWidthStep(font, glyphs, i, kerning, fontScale, Spacing(o, fontSize));
      i := i + 1;
    }
    PartialWidthComplete(font, text, o);
  }

  /** One pass of the width loop: glyph `i`'s scaled advance (if truthy),
      its scaled kerning with the next glyph (if kerning is on and there is
      a next glyph), and the letter-spacing or tracking addend. */
  method AddGlyph(font: Font, glyphs: seq<Glyph>, i: nat, o: TextOptions,
                  kerning: bool, fontScale: real, fontSize: real, width: real)
    returns (width': real)
    requires i < |glyphs|
    ensures width' == width + Advance(glyphs[i]) * fontScale
      + (if kerning && i < |glyphs| - 1 then font.kerningValue(glyphs[i], glyphs[i + 1]) * fontScale else 0.0)
      + Spacing(o, fontSize)
  {
    var glyph := glyphs[i];
    width' := width;
    if Truthy(glyph.advanceWidth) {
      width' := width' + glyph.advanceWidth.value * fontScale;
    }
    if kerning && i < |glyphs| - 1 {
      var kerningValue := font.kerningValue(glyph, glyphs[i + 1]);
      width' := width' + kerningValue * fontScale;
    }
    if Truthy(o.letterSpacing) {
      width' := width' + o.letterSpacing.value * fontSize;
    } else if Truthy(o.tracking) {
      width' := width' + (o.tracking.value / 1000.0) * fontSize;
    }
  }

  lemma AdvanceStep(gs: seq<Glyph>, i: nat, scale: real)
    requires i < |gs|
    ensures AdvanceSum(gs[..i + 1], scale) == AdvanceSum(gs[..i], scale) + Advance(gs[i]) * scale
  {
    assert gs[..i + 1][..i] == gs[..i];
  }

  lemma KernStep(font: Font, gs: seq<Glyph>, i: nat, scale: real)
    requires i < |gs|
    ensures KernSum(font, gs[..KernedPrefix(i + 1, |gs|)], scale)
      == KernSum(font, gs[..KernedPrefix(i, |gs|)], scale)
        + (if i < |gs| - 1 then font.kerningValue(gs[i], gs[i + 1]) * scale else 0.0)
  {
    if i < |gs| - 1 {
      assert gs[..i + 2][..i + 1] == gs[..i + 1];
    }
  }

  /** One pass of the loop adds exactly what `AddGlyph` adds. */
  lemma PartialWidthStep(font: Font, gs: seq<Glyph>, i: nat, kerning: bool, scale: real, spacing: real)
    requires i < |gs|
    ensures PartialWidth(font, gs, i + 1, kerning, scale, spacing)
      == PartialWidth(font, gs, i, kerning, scale, spacing) + Advance(gs[i]) * scale
        + (if kerning && i < |gs| - 1 then font.kerningValue(gs[i], gs[i + 1]) * scale else 0.0)
        + spacing
  {
    AdvanceStep(gs, i, scale);
    KernStep(font, gs, i, scale);
    assert (i + 1) as real * spacing == i as real * spacing + spacing;
  }

  /** After the last glyph the running total is the closed form. */
  lemma PartialWidthComplete(font: Font, text: string, o: TextOptions)
    ensures var gs := font.stringToGlyphs(text);
      PartialWidth(font, gs, |gs|, KerningOf(o), FontScale(font, FontSizeOf(o)), Spacing(o, FontSizeOf(o)))
        == Width(font, text, o)
  {
    var gs := font.stringToGlyphs(text);
    assert gs[..|gs|] == gs;
  }

  /** Empty text (no glyphs) is 0 wide, whatever the options. */
  lemma EmptyTextWidth(font: Font, o: TextOptions)
    requires font.stringToGlyphs("") == []
    ensures Width(font, "", o) == 0.0
  {
  }

  /** Kerning contributes exactly its scaled pair sum: switching it off
      removes that term and nothing else. An absent `kerning` key means on. */
  lemma KerningContribution(font: Font, text: string, o: TextOptions)
    ensures Width(font, text, o.(kerning := None)) == Width(font, text, o.(kerning := Some(true)))
    ensures Width(font, text, o.(kerning := Some(true))) - Width(font, text, o.(kerning := Some(false)))
      == KernSum(font, font.stringToGlyphs(text), FontScale(font, FontSizeOf(o)))
  {
  }

  // ---------------------------------------------------------------------
  // Height

  /** `getHeight`: ascender minus descender, scaled to the font size. */
  function GetHeight(font: Font, fontSize: real): (h: real)
    ensures h * font.unitsPerEm == (font.ascender - font.descender) * fontSize
  {
    (font.ascender - font.descender) * FontScale(font, fontSize)
  }

  /** The height is linear in the font size. */
  lemma HeightLinear(font: Font, a: real, b: real, k: real)
    ensures GetHeight(font, a + b) == GetHeight(font, a) + GetHeight(font, b)
    ensures GetHeight(font, k * a) == k * GetHeight(font, a)
  {
  }

  // ---------------------------------------------------------------------
  // Anchoring

  datatype HAlign = Left | Center | Right
  datatype VAlign = Baseline | Top | Middle | Bottom

  function ResolveHorizontal(h: string): Result<HAlign, LayoutError> {
    if h == "left" then Success(Left)
    else if h == "center" then Success(Center)
    else if h == "right" then Success(Right)
    else Failure(UnknownAnchor(h))
  }

  function ResolveVertical(v: string): Result<VAlign, LayoutError> {
    if v == "baseline" then Success(Baseline)
    else if v == "top" then Success(Top)
    else if v == "middle" then Success(Middle)
    else if v == "bottom" then Success(Bottom)
    else Failure(UnknownAnchor(v))
  }

  function HorizontalShift(h: HAlign, width: real): real {
    match h
    case Left => 0.0
    case Center => width / 2.0
    case Right => width
  }

  function VerticalShift(v: VAlign, ascender: real, height: real): real {
    match v
    case Baseline => ascender
    case Top => 0.0
    case Middle => height / 2.0
    case Bottom => height
  }

  /** The anchor offsets, keyword by keyword: the metrics `m` place the box
      so that the point named by `a` lies on `(x0, y0)`. */
  ghost predicate Anchored(a: Anchor, x0: real, y0: real, m: LineMetrics) {
    && (a.horizontal == "left" ==> m.x == x0)
    && (a.horizontal == "center" ==> m.x == x0 - m.width / 2.0)
    && (a.horizontal == "right" ==> m.x == x0 - m.width)
    && (a.vertical == "baseline" ==> m.y == y0 - m.ascender)
    && (a.vertical == "top" ==> m.y == y0)
    && (a.vertical == "middle" ==> m.y == y0 - m.height / 2.0)
    && (a.vertical == "bottom" ==> m.y == y0 - m.height)
    && m.baseline == m.y + m.ascender
  }

  /** The component the switches reject first: the horizontal one is
      examined before the vertical one. */
  function RejectedComponent(a: Anchor): string {
    if a.horizontal in Horizontals then a.vertical else a.horizontal
  }

  /** The two `switch` statements shared by `getMetrics` and
      `getMetricsForLine`. */
  function Place(a: Anchor, x0: real, y0: real, width: real, height: real, ascender: real, descender: real)
    : (r: Result<LineMetrics, LayoutError>)
    ensures r.Success? <==> a.horizontal in Horizontals && a.vertical in Verticals
    ensures r.Failure? ==> r.error == UnknownAnchor(RejectedComponent(a))
    ensures r.Success? ==>
      && r.value.width == width && r.value.height == height
      && r.value.ascender == ascender && r.value.descender == descender
      && Anchored(a, x0, y0, r.value)
  {
    var h :- ResolveHorizontal(a.horizontal);
    var x := x0 - HorizontalShift(h, width);
    var v :- ResolveVertical(a.vertical);
    var y := y0 - VerticalShift(v, ascender, height);
    Success(LineMetrics(x, y, y + ascender, width, height, ascender, descender))
  }

  /** `m` moved by `(dx, dy)`. */
  function Translate(m: LineMetrics, dx: real, dy: real): LineMetrics {
    m.(x := m.x + dx, y := m.y + dy, baseline := m.baseline + dy)
  }

  /** Moving the origin moves the placed box by the same amount. */
  lemma PlaceTranslates(a: Anchor, x0: real, y0: real, dx: real, dy: real,
                        width: real, height: real, ascender: real, descender: real)
    ensures Place(a, x0 + dx, y0 + dy, width, height, ascender, descender).Success?
        == Place(a, x0, y0, width, height, ascender, descender).Success?
    ensures Place(a, x0, y0, width, height, ascender, descender).Success? ==>
      Place(a, x0 + dx, y0 + dy, width, height, ascender, descender).value
        == Translate(Place(a, x0, y0, width, height, ascender, descender).value, dx, dy)
  {
  }

  // ---------------------------------------------------------------------
  // Whole text and single line

  /** `Math.max(...xs)`. */
  function MaxOf(xs: seq<real>): (m: real)
    requires |xs| > 0
    ensures forall i :: 0 <= i < |xs| ==> xs[i] <= m
    ensures exists i :: 0 <= i < |xs| && xs[i] == m
  {
    if |xs| == 1 then xs[0]
    else
      var rest := MaxOf(xs[1..]);
      assert forall i :: 1 <= i < |xs| ==> xs[i] == xs[1..][i - 1];
      if xs[0] >= rest then xs[0] else rest
  }

  /** `xs.reduce((a, b) => a + b, 0)`. */
  function SumOf(xs: seq<real>): real {
    if |xs| == 0 then 0.0 else SumOf(xs[..|xs| - 1]) + xs[|xs| - 1]
  }

  /** `n` copies of `h`. */
  function Copies(h: real, n: nat): (hs: seq<real>)
    ensures |hs| == n
  {
    seq(n, _ => h)
  }

  /** Summing `n` copies of `h` gives `n * h`. */
  lemma {:induction false} SumOfCopies(h: real, n: nat)
    ensures SumOf(Copies(h, n)) == n as real * h
  {
    if n > 0 {
      assert Copies(h, n)[..n - 1] == Copies(h, n - 1);
      SumOfCopies(h, n - 1);
    }
  }

  /** The width of every line, in order. */
  function LineWidths(font: Font, lines: seq<string>, o: TextOptions): (ws: seq<real>)
    ensures |ws| == |lines|
    ensures forall i :: 0 <= i < |lines| ==> ws[i] == Width(font, lines[i], o)
  {
    seq(|lines|, i requires 0 <= i < |lines| => Width(font, lines[i], o))
  }

  /** `w` is the width of the widest of `lines`. */
  ghost predicate IsWidest(font: Font, lines: seq<string>, o: TextOptions, w: real) {
    && (forall i :: 0 <= i < |lines| ==> Width(font, lines[i], o) <= w)
    && (exists i :: 0 <= i < |lines| && Width(font, lines[i], o) == w)
  }

  /** `Math.max(...widths)` over the widths of `lines`: the widest line. */
  function BlockWidth(font: Font, lines: seq<string>, o: TextOptions): (w: real)
    requires |lines| > 0
    ensures IsWidest(font, lines, o, w)
  {
    MaxOf(LineWidths(font, lines, o))
  }

  /** The heights of `n` lines summed: `n` times one line's height. */
  function BlockHeight(font: Font, n: nat, fontSize: real): (h: real)
    ensures h == n as real * GetHeight(font, fontSize)
  {
    SumOfCopies(GetHeight(font, fontSize), n);
    SumOf(Copies(GetHeight(font, fontSize), n))
  }

  /** `getMetrics`: over the lines of `text`, width is the widest line's
      and height the sum of the line heights; the block is then anchored
      at `(x, y)`. */
  function GetMetrics(font: Font, text: string, o: TextOptions): (r: Result<LineMetrics, LayoutError>)
    ensures r.Success? <==> AnchorAccepted(AnchorText(o))
    ensures r.Failure? ==> r.error == UnknownAnchor(RejectedComponent(ParseAnchor(AnchorText(o))))
    ensures r.Success? ==> IsWidest(font, Split(text, '\n'), o, r.value.width)
    ensures r.Success? ==> r.value.height == BlockHeight(font, |Split(text, '\n')|, FontSizeOf(o))
    ensures r.Success? ==> r.value.ascender == Scaled(font, FontSizeOf(o), font.ascender)
    ensures r.Success? ==> r.value.descender == Scaled(font, FontSizeOf(o), font.descender)
    ensures r.Success? ==> Anchored(ParseAnchor(AnchorText(o)), X0(o), Y0(o), r.value)
  {
    var fontSize := FontSizeOf(o);
    var lines := Split(text, '\n');
    Place(ParseAnchor(AnchorText(o)), X0(o), Y0(o), BlockWidth(font, lines, o), BlockHeight(font, |lines|, fontSize),
      Scaled(font, fontSize, font.ascender), Scaled(font, fontSize, font.descender))
  }

  /** `getMetricsForLine`: the same anchoring against one run's own width
      and one line's height. */
  function GetMetricsForLine(font: Font, text: string, o: TextOptions): (r: Result<LineMetrics, LayoutError>)
    ensures r.Success? <==> AnchorAccepted(AnchorText(o))
    ensures r.Failure? ==> r.error == UnknownAnchor(RejectedComponent(ParseAnchor(AnchorText(o))))
    ensures r.Success? ==> r.value.width == Width(font, text, o)
    ensures r.Success? ==> r.value.height == GetHeight(font, FontSizeOf(o))
    ensures r.Success? ==> r.value.ascender == Scaled(font, FontSizeOf(o), font.ascender)
    ensures r.Success? ==> r.value.descender == Scaled(font, FontSizeOf(o), font.descender)
    ensures r.Success? ==> Anchored(ParseAnchor(AnchorText(o)), X0(o), Y0(o), r.value)
  {
    var fontSize := FontSizeOf(o);
    var anchor := ParseAnchor(AnchorText(o));
    var width := Width(font, text, o);
    var height := GetHeight(font, fontSize);
    Place(anchor, X0(o), Y0(o), width, height, Scaled(font, fontSize, font.ascender), Scaled(font, fontSize, font.descender))
  }

  /** On text without a line break both metrics functions agree. */
  lemma SingleLineMetricsAgree(font: Font, text: string, o: TextOptions)
    requires '\n' !in text
    ensures GetMetrics(font, text, o) == GetMetricsForLine(font, text, o)
  {
    SplitWithoutSeparator(text, '\n');
    var h := GetHeight(font, FontSizeOf(o));
    SumOfCopies(h, 1);
    assert LineWidths(font, [text], o) == [Width(font, text, o)];
  }

  /** The options with the origin moved down by `dy`; only `y` changes. */
  function MoveY(o: TextOptions, dy: real): TextOptions {
    o.(y := Some(Y0(o) + dy))
  }

  /** The options with the origin moved by `(dx, dy)`; both `x` and `y`
      become explicit. */
  function MoveOrigin(o: TextOptions, dx: real, dy: real): TextOptions {
    o.(x := Some(X0(o) + dx), y := Some(Y0(o) + dy))
  }

  /** A line's metrics move with its origin: a new `y` shifts `y` and the
      baseline by the difference and leaves everything else alone. */
  lemma MetricsForLineFollowY(font: Font, text: string, o: TextOptions, dy: real)
    ensures GetMetricsForLine(font, text, MoveY(o, dy)).Success?
        == GetMetricsForLine(font, text, o).Success?
    ensures GetMetricsForLine(font, text, o).Success? ==>
      GetMetricsForLine(font, text, MoveY(o, dy)).value
        == Translate(GetMetricsForLine(font, text, o).value, 0.0, dy)
  {
    var o' := MoveY(o, dy);
    assert Width(font, text, o') == Width(font, text, o);
    assert Y0(o') == Y0(o) + dy;
    PlaceTranslates(ParseAnchor(AnchorText(o)), X0(o), Y0(o), 0.0, dy,
      Width(font, text, o), GetHeight(font, FontSizeOf(o)),
      Scaled(font, FontSizeOf(o), font.ascender), Scaled(font, FontSizeOf(o), font.descender));
  }

  /** The block's metrics move with its origin in the same way. */
  lemma MetricsFollowOrigin(font: Font, text: string, o: TextOptions, dx: real, dy: real)
    ensures GetMetrics(font, text, MoveOrigin(o, dx, dy)).Success?
        == GetMetrics(font, text, o).Success?
    ensures GetMetrics(font, text, o).Success? ==>
      GetMetrics(font, text, MoveOrigin(o, dx, dy)).value
        == Translate(GetMetrics(font, text, o).value, dx, dy)
  {
    var o' := MoveOrigin(o, dx, dy);
    var lines := Split(text, '\n');
    assert forall i :: 0 <= i < |lines| ==> Width(font, lines[i], o') == Width(font, lines[i], o);
    assert LineWidths(font, lines, o') == LineWidths(font, lines, o);
    assert X0(o') == X0(o) + dx && Y0(o') == Y0(o) + dy;
    var fontSize := FontSizeOf(o);
    PlaceTranslates(ParseAnchor(AnchorText(o)), X0(o), Y0(o), dx, dy,
      BlockWidth(font, lines, o),
      BlockHeight(font, |lines|, fontSize),
      Scaled(font, fontSize, font.ascender), Scaled(font, fontSize, font.descender));
  }

  /** With a `baseline` anchor the baseline lies exactly on `y`. */
  lemma BaselineAnchorPinsBaseline(font: Font, text: string, o: TextOptions)
    requires ParseAnchor(AnchorText(o)).vertical == "baseline"
    requires GetMetrics(font, text, o).Success?
    ensures GetMetrics(font, text, o).value.baseline == Y0(o)
    ensures GetMetricsForLine(font, text, o).value.baseline == Y0(o)
  {
  }

  /** The default anchor puts the box's left edge on `x0` and its
      baseline on `y0`. */
  lemma LeftBaselinePlace(x0: real, y0: real, width: real, height: real, ascender: real, descender: real)
    ensures Place(Anchor("left", "baseline"), x0, y0, width, height, ascender, descender)
      == Success(LineMetrics(x0, y0 - ascender, y0, width, height, ascender, descender))
  {
  }

  /** A single glyph at font size 100 is one scaled advance wide. */
  lemma SingleGlyphWidth(font: Font, g: Glyph)
    requires font.stringToGlyphs("A") == [g]
    ensures Width(font, "A", NoOptions.(fontSize := Some(100.0))) == Advance(g) * 100.0 / font.unitsPerEm
  {
    var o := NoOptions.(fontSize := Some(100.0));
    var scale := FontScale(font, 100.0);
    assert [g][..0] == [];
    assert AdvanceSum([g], scale) == Advance(g) * scale;
    assert Spacing(o, 100.0) == 0.0;
  }

  /** One glyph, font size 100, default anchor: the box starts at x = 0 and
      one ascender above y = 0, its baseline is at 0, it is one scaled
      advance wide and one line high. */
  lemma SingleGlyphScenario(font: Font, g: Glyph)
    requires font.stringToGlyphs("A") == [g]
    ensures var o := NoOptions.(fontSize := Some(100.0));
      var m := GetMetrics(font, "A", o);
      && m.Success?
      && m.value.x == 0.0
      && m.value.y == -(font.ascender * 100.0 / font.unitsPerEm)
      && m.value.baseline == 0.0
      && m.value.width == Advance(g) * 100.0 / font.unitsPerEm
      && m.value.height == GetHeight(font, 100.0)
  {
    var o := NoOptions.(fontSize := Some(100.0));
    EmptyAnchorDefaults();
    assert AnchorText(o) == "";
    SingleLineMetricsAgree(font, "A", o);
    SingleGlyphWidth(font, g);
    var ascender := Scaled(font, 100.0, font.ascender);
    LeftBaselinePlace(0.0, 0.0, Width(font, "A", o), GetHeight(font, 100.0),
      ascender, Scaled(font, 100.0, font.descender));
    assert ascender == font.ascender * 100.0 / font.unitsPerEm;
  }
}
