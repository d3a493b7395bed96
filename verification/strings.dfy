/** Splitting a string on a one-character separator (JavaScript's
    `String.prototype.split` with a one-character string) and joining a
    sequence of strings with a separator (`Array.prototype.join`). */
module Strings {

  /** `parts` glued together with `sep` between neighbours; `[]` gives "". */
  function Join(parts: seq<string>, sep: string): string
  {
    if |parts| == 0 then ""
    else if |parts| == 1 then parts[0]
    else parts[0] + sep + Join(parts[1..], sep)
  }

  /** The pieces of `s` between occurrences of `sep`; there is always at
      least one ("" splits into [""]). What the pieces are is `SplitSpec`. */
  function Split(s: string, sep: char): (parts: seq<string>)
    ensures |parts| >= 1
    decreases |s|
  {
    if |s| == 0 then [""]
    else
      var rest := Split(s[1..], sep);
      if s[0] == sep then [""] + rest
      else [[s[0]] + rest[0]] + rest[1..]
  }

  /** No piece contains the separator. */
  lemma {:induction false} SplitPiecesClean(s: string, sep: char)
    ensures forall i :: 0 <= i < |Split(s, sep)| ==> sep !in Split(s, sep)[i]
    decreases |s|
  {
    if |s| > 0 {
      var rest := Split(s[1..], sep);
      var parts := Split(s, sep);
      SplitPiecesClean(s[1..], sep);
      if s[0] == sep {
        assert parts == [""] + rest;
        forall i | 0 <= i < |parts| ensures sep !in parts[i] {
          if i > 0 {
            assert parts[i] == rest[i - 1];
          }
        }
      } else {
        var first := [s[0]] + rest[0];
        assert parts == [first] + rest[1..];
        forall i | 0 <= i < |parts| ensures sep !in parts[i] {
          if i > 0 {
            assert parts[i] == rest[i];
          }
        }
      }
    }
  }

  /** Joining the pieces back with the separator gives `s`. */
  lemma {:induction false} SplitRejoin(s: string, sep: char)
    ensures Join(Split(s, sep), [sep]) == s
    decreases |s|
  {
    if |s| > 0 {
      var rest := Split(s[1..], sep);
      SplitRejoin(s[1..], sep);
      if s[0] == sep {
        assert s == [sep] + s[1..];
        assert Split(s, sep) == [""] + rest;
      } else {
        var first := [s[0]] + rest[0];
        assert Split(s, sep) == [first] + rest[1..];
        assert s == [s[0]] + s[1..];
        assert Join([first] + rest[1..], [sep]) == [s[0]] + Join(rest, [sep]) by {
          if |rest| > 1 {
            assert ([first] + rest[1..])[1..] == rest[1..];
          }
        }
      }
    }
  }

  /** No piece contains the separator, and joining the pieces back with
      the separator gives `s`. */
  lemma {:induction false} SplitSpec(s: string, sep: char)
    ensures forall i :: 0 <= i < |Split(s, sep)| ==> sep !in Split(s, sep)[i]
    ensures Join(Split(s, sep), [sep]) == s
  {
    SplitPiecesClean(s, sep);
    SplitRejoin(s, sep);
  }

  /** Splitting undoes joining: any non-empty list of separator-free pieces
      is recovered exactly. Together with `SplitSpec` this makes
      Split and Join inverse to each other. */
  lemma {:induction false} SplitJoin(parts: seq<string>, sep: char)
    requires |parts| >= 1
    requires forall i :: 0 <= i < |parts| ==> sep !in parts[i]
    ensures Split(Join(parts, [sep]), sep) == parts
    decreases |parts|, |parts[0]|
  {
    var s := Join(parts, [sep]);
    if |parts[0]| == 0 {
      if |parts| == 1 {
        assert s == "";
      } else {
        assert s == [sep] + Join(parts[1..], [sep]);
        assert s[1..] == Join(parts[1..], [sep]);
        SplitJoin(parts[1..], sep);
        assert parts == [""] + parts[1..];
      }
    } else {
      var c := parts[0][0];
      var tail := [parts[0][1..]] + parts[1..];
      assert parts[0] == [c] + parts[0][1..];
      forall i | 0 <= i < |tail| ensures sep !in tail[i] {
        if i == 0 {
          assert forall j :: 0 <= j < |parts[0][1..]| ==> parts[0][1..][j] == parts[0][j + 1];
        } else {
          assert tail[i] == parts[i];
        }
      }
      assert c != sep by { assert parts[0][0] in parts[0]; }
      assert s == [c] + Join(tail, [sep]) by {
        if |parts| > 1 {
          assert tail[1..] == parts[1..];
        }
      }
      assert s[1..] == Join(tail, [sep]);
      SplitJoin(tail, sep);
      assert parts == [[c] + tail[0]] + tail[1..];
    }
  }

  /** A string without the separator splits into just itself. */
  lemma SplitWithoutSeparator(s: string, sep: char)
    requires sep !in s
    ensures Split(s, sep) == [s]
  {
    SplitJoin([s], sep);
  }

  /** There is one more piece than there are separators in `s`. */
  lemma {:induction false} SplitCount(s: string, sep: char)
    ensures |Split(s, sep)| == multiset(s)[sep] + 1
    decreases |s|
  {
    if |s| > 0 {
      SplitCount(s[1..], sep);
      assert s == [s[0]] + s[1..];
      assert multiset(s) == multiset{s[0]} + multiset(s[1..]);
    }
  }
}
