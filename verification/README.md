# text-to-svg layout engine, modelled in Dafny

`TextToSVG` turns a string into SVG path markup with a loaded OpenType
font. This project models its layout core (`src/index.ts`):

- anchor parsing (`parseAnchorOption`): the first horizontal and the first
  vertical keyword found case-insensitively in the `anchor` option;
- run width (`getWidth`): scaled advances, kerning and letter spacing or
  tracking;
- line height (`getHeight`);
- block and line metrics (`getMetrics`, `getMetricsForLine`): the box
  anchored at `(x, y)`;
- path assembly (`getD`, `getPath`): one outline per line, with line `i`
  pushed `i` font sizes down;
- the two SVG documents (`getSVG`, `getDebugSVG`).

Modules follow the program's structure:

| module | file | what it holds |
|---|---|---|
| `Wrappers` | `wrappers.dfy` | `Option` and `Result` |
| `Strings` | `strings.dfy` | `split` on one character, `join` |
| `Fonts` | `fonts.dfy` | the font handle and the options bag with their defaults (`options.fontSize \|\| 72`, `'kerning' in options ? … : true`, …) |
| `Anchors` | `anchors.dfy` | the regular-expression scan and `parseAnchorOption` |
| `Metrics` | `metrics.dfy` | width, height, the anchor `switch` statements, `getMetrics`, `getMetricsForLine` |
| `Paths` | `paths.dfy` | `getD`, `getPath`, `getSVG`, `getDebugSVG` |

The font is an immutable record. Its three capabilities are function-valued
fields, so every operation is a pure function of the font and the options:

- `stringToGlyphs`;
- `getKerningValue`, which is the field `kerningValue`;
- `getPath(...).toPathData(2)`, which is the field `pathData`.

A thrown `Error` is the `Failure` case of a `Result`. Its message is
`UnknownAnchor(option).Message()`.

**Anchors with capitals are rejected.** The regular expressions match
case-insensitively but keep the anchor's own spelling, and the `switch`
statements compare case-sensitively. So `"Center"` or `"TOP"` throws
`Unknown anchor option`.

- `Anchors.AnchorAcceptedIffLowercase` states exactly which anchors are
  accepted.
- The anchored operations (`getMetrics`, `getMetricsForLine`, `getD`,
  `getPath`, `getSVG`, `getDebugSVG`) fail with that error on every
  other anchor.
- `getWidth` and `getHeight` take no anchor and never fail.

## Model

| member | source | states |
|---|---|---|
| Strings.SplitSpec | src/index.ts:93 | The lines of `text.split("\n")` contain no newline, and joining them with newlines gives back the text. |
| Strings.SplitJoin | src/index.ts:226 | Splitting inverts joining: any non-empty list of newline-free lines, joined with newlines, splits back into exactly that list. |
| Strings.SplitCount | src/index.ts:93 | There is one more line than there are newline characters in the text. |
| Anchors.ScanNone | src/index.ts:15 | A regular-expression scan from position `i` reports no match only when no alternative matches at any position from `i` on. |
| Anchors.ScanLeftmost | src/index.ts:15 | The match a scan reports is at the leftmost matching position, and it is the earliest alternative at that position. |
| Anchors.FirstMatchSpec | src/index.ts:15-16 | `(s.match(re) \|\| [])[0]` with a default: the default when nothing matches; otherwise the text of the leftmost hit in its original case, which equals some keyword up to case. |
| Anchors.ParseAnchorSpec | src/index.ts:14-22 | Each component is the leftmost keyword of its class found in the anchor, case preserved, or `left` / `baseline` when there is none; each equals a keyword of its class up to case. |
| Anchors.AnchorAcceptedIffLowercase | src/index.ts:107-137 | The anchor `switch` statements accept the parsed anchor exactly when neither component contains an upper-case letter. |
| Anchors.LowercaseAnchorAccepted | src/index.ts:97-137 | An anchor string without upper-case letters is always accepted. |
| Anchors.EmptyAnchorDefaults | src/index.ts:15-19 | The empty anchor (also the value of an absent option) parses to `left` / `baseline`, and that anchor is accepted. |
| Anchors.LeftoverIsLeft | src/index.ts:15-16 | A keyword inside a longer word still matches: `"leftover"` anchors `left`. |
| Anchors.CapitalisedCenterRejected | src/index.ts:107-119 | `"Center"` parses to the horizontal component `"Center"`, and the horizontal `switch` rejects it. |
| Anchors.CapitalisedTopRejected | src/index.ts:122-137 | `"TOP"` parses to the vertical component `"TOP"`, and the vertical `switch` rejects it. |
| Metrics.GetWidth | src/index.ts:56-82 | The width loop computes the closed form: the sum of scaled truthy advances, plus the scaled kerning of every adjacent pair when kerning is on, plus one letter-spacing (or else tracking / 1000) addend per glyph. |
| Metrics.EmptyTextWidth | src/index.ts:61-81 | Text with no glyphs is 0 wide, whatever the options. |
| Metrics.KerningContribution | src/index.ts:58-73 | An absent `kerning` key behaves as `true`; switching kerning off removes exactly the scaled pair-kerning sum from the width. |
| Metrics.GetHeight | src/index.ts:84-87 | The height times units-per-em is (ascender − descender) times the font size. |
| Metrics.HeightLinear | src/index.ts:84-87 | The height is additive and homogeneous in the font size, and does not depend on the text. |
| Metrics.Place | src/index.ts:106-139 | The anchor `switch` statements succeed exactly for known keywords. An unknown horizontal component is reported first, then the vertical one. On success: width, height, ascender and descender are kept; `x` is `x0`, `x0 − w/2` or `x0 − w`; `y` is `y0 − ascender`, `y0`, `y0 − h/2` or `y0 − h`; and `baseline = y + ascender`. |
| Metrics.PlaceTranslates | src/index.ts:106-139 | Moving the origin by `(dx, dy)` moves the placed box by the same amount and does not change whether placement succeeds. |
| Metrics.MaxOf | src/index.ts:99 | `Math.max(...xs)` on a non-empty list is an upper bound of every element and is one of the elements. |
| Metrics.BlockWidth | src/index.ts:93-99 | The block width is the width of the widest line. |
| Metrics.BlockHeight | src/index.ts:95-100 | Summing one line height per line gives `N · getHeight(fontSize)`. |
| Metrics.GetMetrics | src/index.ts:89-150 | Succeeds exactly for accepted anchors and otherwise fails with the rejected component. On success: the width is the widest line's; the height is the number of lines times one line height; ascender and descender are scaled; and the box is anchored at `(x, y)`. |
| Metrics.GetMetricsForLine | src/index.ts:152-207 | The same anchoring, applied to the run's own width and one line height, with the same error. |
| Metrics.SingleLineMetricsAgree | src/index.ts:89-207 | On text without a newline, `getMetrics` and `getMetricsForLine` give the same result. |
| Metrics.MetricsForLineFollowY | src/index.ts:152-207 | Moving `y` down by `dy` keeps the outcome and moves the line's box and baseline down by `dy`. |
| Metrics.MetricsFollowOrigin | src/index.ts:89-150 | Moving the origin by `(dx, dy)` keeps the outcome and moves the block's box and baseline by `(dx, dy)`. |
| Metrics.BaselineAnchorPinsBaseline | src/index.ts:121-139 | With a `baseline` vertical anchor, the baseline is exactly `y`, for the block and for a single line. |
| Metrics.SingleGlyphScenario | src/index.ts:89-150 | One glyph at font size 100 with no anchor gives: `x = 0`, `y` = minus the scaled ascender, `baseline = 0`, width = one scaled advance, height = one line. |
| Paths.AttributeString | src/index.ts:221-224 | The joined `key="value"` text is empty exactly when no attribute is given. |
| Paths.GetD | src/index.ts:209-218 | Succeeds exactly for accepted anchors, with the same error otherwise. The outline is drawn at the line's anchored `x` and baseline, so with the default anchor it is drawn at `(x, y)` itself. |
| Paths.GetDFollowsY | src/index.ts:209-218 | Moving `y` down by `dy` draws the line's outline at the same `x` with the baseline `dy` lower. |
| Paths.LineFragments | src/index.ts:225-228 | Builds one fragment per line, or fails with the anchor error; the first failure aborts. |
| Paths.LineFragmentStackedAt | src/index.ts:225-228 | Fragment `k` is line `k` drawn where the line alone would be drawn, moved `k` font sizes down. |
| Paths.GetPath | src/index.ts:220-236 | Succeeds exactly for accepted anchors. The fragments are joined by single spaces inside `<path d="…"/>`, with the attributes first when any are given. |
| Paths.PathFragments | src/index.ts:225-229 | `getPath` emits one more fragment than there are newlines, and each fragment is its line stacked by its index. |
| Paths.BaselineRowsStack | src/index.ts:227 | With a `baseline` anchor, line `k` is drawn on the baseline `y + k · fontSize`. |
| Paths.EmptyTextPath | src/index.ts:220-236 | Empty text with default options still produces `<path d=""/>` when the font draws nothing for "". |
| Paths.SingleAttributeScenario | src/index.ts:220-236 | `{attributes: {fill: 'red'}}` writes `fill="red"` once, before `d`. |
| Paths.GetSVG | src/index.ts:238-247 | Succeeds exactly for accepted anchors, with the same error otherwise. |
| Paths.SvgWrapsPath | src/index.ts:238-247 | The `<svg>` wraps exactly the `getPath` element. It is as wide as the widest line and `N` line heights high. |
| Paths.DebugFrame | src/index.ts:255-262 | The debug box is never negative. The shifted origin lies inside it, and so do both axes. The block box from `getMetrics`, moved by the origin shift, lies inside it. |
| Paths.GetDebugSVG | src/index.ts:249-275 | Succeeds exactly for accepted anchors, with the same error otherwise. |
| Paths.DebugSvgLayout | src/index.ts:249-275 | The debug document is sized by the debug frame of the block measured with `x` and `y` defaulted to 0. Its two axes run through the frame's origin, and it wraps the `getPath` element of the text shifted by that origin. |
| Paths.DebugTextInsideBox | src/index.ts:250-266 | Re-measuring the text with `getMetrics` and the shifted origin puts that block box inside the debug viewport. This is the box `getMetrics` measures, not the lines `getPath` draws: each line is placed by `getMetricsForLine` against one line height at `y + fontSize · i`. With a `bottom` or `middle` anchor and several lines, the later lines can extend below the viewport. |

## Left out

- `loadSync`, `load` and `DEFAULT_FONT` are file and network I/O; the model takes the loaded font as an argument.
- opentype.js internals are left out:
  - glyph segmentation, the kerning table and outline rendering are the font fields `stringToGlyphs`, `kerningValue` and `pathData`;
  - `toPathData(2)`'s two-decimal rounding is part of `pathData`.
- Numbers are mathematical reals. There is no IEEE-754 rounding, NaN or Infinity. As a result, `options.y ?? 0` and `options.y || 0` give the same value, and the model uses one helper for both.
- The conversion of a number inside a template literal (`${width}`) is the parameter `fmt`.
- `getDebugSVG`'s `JSON.parse(JSON.stringify(options))` is the identity. The model does not drop `undefined` values or non-JSON values, and does not turn NaN into `null`.
- `attributes` is a list of (key, value) strings in key order. The model does not convert arbitrary values to strings and does not cover key-ordering rules.
- A `kerning` key that is present but `undefined` is folded into "absent". The source would pass `undefined`, which is falsy, where the model passes `true`.
- `vite.config.ts` and the build setup are not part of this model.
- Paths.GetSVG: the contract states only success and the error. The document itself is stated by `Paths.SvgWrapsPath`.
- Paths.GetDebugSVG: the contract states only success and the error. The document itself is stated by `Paths.DebugSvgLayout`.
