/** The loaded font handle and the per-call options bag.

    The font is an immutable record. Its capabilities (segmenting text into
    glyphs, the kerning table and outline rendering) are function-valued
    fields, so every operation below is a pure function of its font. */
module Fonts {
  import opened Wrappers

  /** Strictly positive reals: a font's units per em. */
  type PosReal = r: real | r > 0.0 witness 1.0

  /** A glyph as the font parser hands it out. An absent advance width is
      `None`; it behaves like 0 in every sum. */
  datatype Glyph = Glyph(index: nat, advanceWidth: Option<real>)

  /** The spacing options forwarded to the outline renderer. */
  datatype RenderOptions = RenderOptions(
    kerning: bool,
    letterSpacing: Option<real>,
    tracking: Option<real>)

  /** The loaded font. `pathData(line, x, baseline, fontSize, options)` is
      the outline of `line` with its origin at `(x, baseline)`, already
      serialised as SVG path data. */
  datatype Font = Font(
    unitsPerEm: PosReal,
    ascender: real,
    descender: real,
    stringToGlyphs: string -> seq<Glyph>,
    kerningValue: (Glyph, Glyph) -> real,
    pathData: (string, real, real, real, RenderOptions) -> string)

  /** The options bag. `None` is an absent key (or an `undefined` value);
      `attributes` lists the attribute names and values in key order. */
  datatype TextOptions = TextOptions(
    fontSize: Option<real>,
    kerning: Option<bool>,
    letterSpacing: Option<real>,
    tracking: Option<real>,
    anchor: Option<string>,
    x: Option<real>,
    y: Option<real>,
    attributes: seq<(string, string)>)

  /** Every key absent: the `options = {}` default of the library. */
  const NoOptions := TextOptions(None, None, None, None, None, None, None, [])

  const DefaultFontSize: real := 72.0

  /** JavaScript truthiness of an optional number: present and non-zero. */
  predicate Truthy(v: Option<real>) {
    v.Some? && v.value != 0.0
  }

  /** `v || d`: the value when it is truthy, the default otherwise. */
  function OrElse(v: Option<real>, d: real): real {
    if Truthy(v) then v.value else d
  }

  /** `options.fontSize || 72`: an absent or zero font size becomes 72. */
  function FontSizeOf(o: TextOptions): real {
    OrElse(o.fontSize, DefaultFontSize)
  }

  /** `'kerning' in options ? options.kerning : true`. */
  function KerningOf(o: TextOptions): bool {
    o.kerning.GetOr(true)
  }

  /** `options.x || 0`; also `options.x ?? 0`, which gives the same real. */
  function X0(o: TextOptions): real {
    OrElse(o.x, 0.0)
  }

  /** `options.y || 0`; also `options.y ?? 0`, which gives the same real. */
  function Y0(o: TextOptions): real {
    OrElse(o.y, 0.0)
  }

  /** `options.anchor || ''`. */
  function AnchorText(o: TextOptions): string {
    o.anchor.GetOr("")
  }

  /** Design units to pixels: `1 / unitsPerEm * fontSize`. */
  function FontScale(font: Font, fontSize: real): real {
    1.0 / font.unitsPerEm * fontSize
  }

  /** A quantity in design units converted to pixels. */
  function Scaled(font: Font, fontSize: real, v: real): real {
    v * FontScale(font, fontSize)
  }
}
