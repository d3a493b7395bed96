/** Anchor parsing: `anchor.match(/left|center|right/gi)` and
    `anchor.match(/baseline|top|bottom|middle/gi)`, keeping only the first
    match of each, then the `switch` that accepts the matched text.

    A global regular expression finds its first match at the leftmost
    position where some alternative matches, trying the alternatives in
    the order written. The `i` flag without `u` folds only the ASCII
    letters, so case-insensitive equality is `Lower` on both sides. The
    match keeps the case of the anchor string. */
module Anchors {
  import opened Wrappers

  const Horizontals: seq<string> := ["left", "center", "right"]
  const Verticals: seq<string> := ["baseline", "top", "bottom", "middle"]

  predicate IsUpper(c: char) {
    'A' <= c <= 'Z'
  }

  function Lower(c: char): char {
    if IsUpper(c) then (c as int + 32) as char else c
  }

  predicate NoUpper(s: string) {
    forall i :: 0 <= i < |s| ==> !IsUpper(s[i])
  }

  /** Equal up to ASCII letter case. */
  predicate CaseEq(a: string, b: string) {
    |a| == |b| && forall i :: 0 <= i < |a| ==> Lower(a[i]) == Lower(b[i])
  }

  /** Keyword `kw` matches `s` case-insensitively starting at position `i`. */
  predicate MatchesAt(s: string, i: int, kw: string) {
    0 <= i && i + |kw| <= |s| && CaseEq(s[i..i + |kw|], kw)
  }

  /** A match: the position and the index of the alternative that matched. */
  datatype Hit = Hit(pos: nat, alt: nat)

  /** No alternative matches anywhere in `s`. */
  ghost predicate NoMatch(s: string, kws: seq<string>) {
    forall j, k :: 0 <= j && 0 <= k < |kws| ==> !MatchesAt(s, j, kws[k])
  }

  /** `h` is the match a regular expression `kws[0]|kws[1]|...` reports
      first when it starts looking at position `from`: nothing matches
      between `from` and `h.pos`, and no earlier alternative matches at
      `h.pos`. */
  ghost predicate LeftmostHitFrom(s: string, kws: seq<string>, from: int, h: Hit) {
    && from <= h.pos
    && h.alt < |kws|
    && MatchesAt(s, h.pos, kws[h.alt])
    && (forall j, k :: from <= j < h.pos && 0 <= k < |kws| ==> !MatchesAt(s, j, kws[k]))
    && (forall k :: 0 <= k < h.alt ==> !MatchesAt(s, h.pos, kws[k]))
  }

  /** The first alternative, from index `k` on, matching at position `i`. */
  function FirstAlternative(s: string, i: int, kws: seq<string>, k: nat): (r: Option<nat>)
    requires k <= |kws|
    ensures r.None? ==> forall j :: k <= j < |kws| ==> !MatchesAt(s, i, kws[j])
    ensures r.Some? ==> k <= r.value < |kws| && MatchesAt(s, i, kws[r.value])
    ensures r.Some? ==> forall j :: k <= j < r.value ==> !MatchesAt(s, i, kws[j])
    decreases |kws| - k
  {
    if k == |kws| then None
    else if MatchesAt(s, i, kws[k]) then Some(k)
    else FirstAlternative(s, i, kws, k + 1)
  }

  /** The regular-expression scan: try every position from `i` on, left
      to right, including the end of the string. What it finds is a match;
      that it is the leftmost one is `ScanLeftmost`. */
  function Scan(s: string, kws: seq<string>, i: nat): (r: Option<Hit>)
    ensures r.Some? ==> i <= r.value.pos && r.value.alt < |kws| && MatchesAt(s, r.value.pos, kws[r.value.alt])
    decreases |s| + 1 - i
  {
    if i > |s| then None
    else
      match FirstAlternative(s, i, kws, 0)
      case Some(k) => Some(Hit(i, k))
      case None => Scan(s, kws, i + 1)
  }

  /** The scan reports nothing only when no alternative matches from `i`
      on. */
  lemma {:induction false} ScanNone(s: string, kws: seq<string>, i: nat)
    requires Scan(s, kws, i).None?
    ensures forall j, k :: i <= j && 0 <= k < |kws| ==> !MatchesAt(s, j, kws[k])
    decreases |s| + 1 - i
  {
    if i <= |s| {
      assert FirstAlternative(s, i, kws, 0).None?;
      ScanNone(s, kws, i + 1);
    }
  }

  /** What the scan reports is the leftmost match, earliest alternative
      first. */
  lemma {:induction false} ScanLeftmost(s: string, kws: seq<string>, i: nat)
    requires Scan(s, kws, i).Some?
    ensures LeftmostHitFrom(s, kws, i, Scan(s, kws, i).value)
    decreases |s| + 1 - i
  {
    var first := FirstAlternative(s, i, kws, 0);
    if first.None? {
      ScanLeftmost(s, kws, i + 1);
    }
  }

  /** `(s.match(re) || [])`, first element, or `default` when empty. */
  function FirstMatch(s: string, kws: seq<string>, default: string): string {
    match Scan(s, kws, 0)
    case None => default
    case Some(h) => s[h.pos..h.pos + |kws[h.alt]|]
  }

  /** `m` is what a global match of `kws[0]|kws[1]|...` against `s` yields
      first, with `default` standing in for no match: the text of the
      leftmost hit, in its original case. */
  ghost predicate IsFirstMatch(s: string, kws: seq<string>, default: string, m: string) {
    && (NoMatch(s, kws) ==> m == default)
    && (!NoMatch(s, kws) ==> exists h :: LeftmostHitFrom(s, kws, 0, h) && m == s[h.pos..h.pos + |kws[h.alt]|])
  }

  /** `FirstMatch` yields the leftmost match, and that equals some keyword
      up to case. */
  lemma FirstMatchSpec(s: string, kws: seq<string>, default: string)
    ensures IsFirstMatch(s, kws, default, FirstMatch(s, kws, default))
    ensures !NoMatch(s, kws) ==> exists k :: 0 <= k < |kws| && CaseEq(FirstMatch(s, kws, default), kws[k])
  {
    if Scan(s, kws, 0).None? {
      ScanNone(s, kws, 0);
    } else {
      ScanLeftmost(s, kws, 0);
    }
  }

  /** The two matched components, as the library's `parseAnchorOption`
      returns them. */
  datatype Anchor = Anchor(horizontal: string, vertical: string)

  /** `parseAnchorOption`: the first horizontal and the first vertical
      keyword found in `s`; `ParseAnchorSpec` says which. */
  function ParseAnchor(s: string): Anchor {
    Anchor(FirstMatch(s, Horizontals, "left"), FirstMatch(s, Verticals, "baseline"))
  }

  /** Each component is the leftmost keyword match in its original case,
      `left` and `baseline` when there is none; either way it equals one
      of the keywords up to case. */
  lemma ParseAnchorSpec(s: string)
    ensures IsFirstMatch(s, Horizontals, "left", ParseAnchor(s).horizontal)
    ensures IsFirstMatch(s, Verticals, "baseline", ParseAnchor(s).vertical)
    ensures exists k :: 0 <= k < |Horizontals| && CaseEq(ParseAnchor(s).horizontal, Horizontals[k])
    ensures exists k :: 0 <= k < |Verticals| && CaseEq(ParseAnchor(s).vertical, Verticals[k])
  {
    var a := ParseAnchor(s);
    FirstMatchSpec(s, Horizontals, "left");
    FirstMatchSpec(s, Verticals, "baseline");
    if NoMatch(s, Horizontals) {
      assert CaseEq(a.horizontal, Horizontals[0]);
    }
    if NoMatch(s, Verticals) {
      assert CaseEq(a.vertical, Verticals[0]);
    }
  }

  /** The `switch` statements of the library accept a component only when it
      is spelt exactly as one of the keywords. */
  predicate AnchorAccepted(s: string) {
    var a := ParseAnchor(s);
    a.horizontal in Horizontals && a.vertical in Verticals
  }

  /** Case-insensitive equality with a lower-case word is equality exactly
      when no upper-case letter is present. */
  lemma CaseEqLowercase(m: string, kw: string)
    requires CaseEq(m, kw) && NoUpper(kw)
    ensures m == kw <==> NoUpper(m)
  {
    if NoUpper(m) {
      forall i | 0 <= i < |m| ensures m[i] == kw[i] {
        assert Lower(m[i]) == Lower(kw[i]);
      }
    }
  }

  lemma {:induction false} FirstMatchExactIffNoUpper(s: string, kws: seq<string>, default: string)
    requires forall k :: 0 <= k < |kws| ==> NoUpper(kws[k])
    requires default in kws
    ensures FirstMatch(s, kws, default) in kws <==> NoUpper(FirstMatch(s, kws, default))
  {
    var m := FirstMatch(s, kws, default);
    match Scan(s, kws, 0)
    case None =>
    case Some(h) =>
      assert MatchesAt(s, h.pos, kws[h.alt]);
      CaseEqLowercase(m, kws[h.alt]);
      if m in kws {
        var j :| 0 <= j < |kws| && kws[j] == m;
        assert NoUpper(kws[j]);
      }
  }

  lemma KeywordsLowercase()
    ensures forall k :: 0 <= k < |Horizontals| ==> NoUpper(Horizontals[k])
    ensures forall k :: 0 <= k < |Verticals| ==> NoUpper(Verticals[k])
  {
    assert NoUpper(Horizontals[0]) && NoUpper(Horizontals[1]) && NoUpper(Horizontals[2]);
    assert NoUpper(Verticals[0]) && NoUpper(Verticals[1]) && NoUpper(Verticals[2]) && NoUpper(Verticals[3]);
  }

  /** An anchor is accepted exactly when neither matched component contains
      an upper-case letter: "Center" or "TOP" is rejected, "center" and
      "top" (and anything without a keyword) are accepted. */
  lemma AnchorAcceptedIffLowercase(s: string)
    ensures AnchorAccepted(s) <==> NoUpper(ParseAnchor(s).horizontal) && NoUpper(ParseAnchor(s).vertical)
  {
    KeywordsLowercase();
    FirstMatchExactIffNoUpper(s, Horizontals, "left");
    FirstMatchExactIffNoUpper(s, Verticals, "baseline");
  }

  /** A match is a piece of `s`, so it has no upper-case letter when `s`
      has none. */
  lemma FirstMatchNoUpper(s: string, kws: seq<string>, default: string)
    requires NoUpper(s)
    ensures Scan(s, kws, 0).Some? ==> NoUpper(FirstMatch(s, kws, default))
  {
    match Scan(s, kws, 0)
    case None =>
    case Some(h) =>
      var m := s[h.pos..h.pos + |kws[h.alt]|];
      forall i | 0 <= i < |m| ensures !IsUpper(m[i]) {
        assert m[i] == s[h.pos + i];
      }
  }

  /** Every anchor string with no upper-case letter is accepted. */
  lemma LowercaseAnchorAccepted(s: string)
    requires NoUpper(s)
    ensures AnchorAccepted(s)
  {
    KeywordsLowercase();
    FirstMatchExactIffNoUpper(s, Horizontals, "left");
    FirstMatchExactIffNoUpper(s, Verticals, "baseline");
    FirstMatchNoUpper(s, Horizontals, "left");
    FirstMatchNoUpper(s, Verticals, "baseline");
  }

  /** Without an anchor option both defaults apply, and they are
      accepted. */
  lemma EmptyAnchorDefaults()
    ensures ParseAnchor("") == Anchor("left", "baseline")
    ensures AnchorAccepted("")
  {
    assert FirstAlternative("", 0, Horizontals, 0).None?;
    assert FirstAlternative("", 0, Verticals, 0).None?;
    assert Scan("", Horizontals, 0).None? && Scan("", Verticals, 0).None?;
  }

  /** A keyword inside a longer word still counts: "leftover" anchors left. */
  lemma LeftoverIsLeft()
    ensures ParseAnchor("leftover").horizontal == "left"
  {
    assert MatchesAt("leftover", 0, Horizontals[0]);
  }

  /** A keyword spelt with capitals is matched, case preserved, and then
      rejected: "Center" is not a horizontal anchor. */
  lemma CapitalisedCenterRejected()
    ensures ParseAnchor("Center").horizontal == "Center"
    ensures !AnchorAccepted("Center")
  {
    assert !MatchesAt("Center", 0, Horizontals[0]) by {
      assert "Center"[0..4][0] == 'C' && Lower('C') != Lower('l');
    }
    assert MatchesAt("Center", 0, Horizontals[1]);
    assert FirstAlternative("Center", 0, Horizontals, 0) == Some(1);
    assert Scan("Center", Horizontals, 0) == Some(Hit(0, 1));
    AnchorAcceptedIffLowercase("Center");
    assert IsUpper("Center"[0]);
  }

  /** Likewise "TOP" is matched as a vertical keyword and rejected. */
  lemma CapitalisedTopRejected()
    ensures ParseAnchor("TOP").vertical == "TOP"
    ensures !AnchorAccepted("TOP")
  {
    assert !MatchesAt("TOP", 0, Verticals[0]);
    assert MatchesAt("TOP", 0, Verticals[1]);
    assert FirstAlternative("TOP", 0, Verticals, 0) == Some(1);
    assert Scan("TOP", Verticals, 0) == Some(Hit(0, 1));
    AnchorAcceptedIffLowercase("TOP");
    assert IsUpper("TOP"[0]);
  }
}
