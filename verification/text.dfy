/** String helpers shared by the models: the JavaScript string operations the
    application relies on (toLowerCase/toUpperCase restricted to ASCII, trim,
    includes, split, join), stated over `seq<char>`. */
module Text {

  datatype Option<+T> = None | Some(value: T)

  // ---------------------------------------------------------------------
  // Case mapping (ASCII letters only)

  function LowerChar(c: char): char {
    if 'A' <= c <= 'Z' then (c as int + 32) as char else c
  }

  function UpperChar(c: char): char {
    if 'a' <= c <= 'z' then (c as int - 32) as char else c
  }

  /** `s.toLowerCase()` */
  function Lower(s: string): (r: string)
    ensures |r| == |s|
    ensures forall i :: 0 <= i < |s| ==> r[i] == LowerChar(s[i])
  {
    seq(|s|, i requires 0 <= i < |s| => LowerChar(s[i]))
  }

  /** `s.toUpperCase()` */
  function Upper(s: string): (r: string)
    ensures |r| == |s|
    ensures forall i :: 0 <= i < |s| ==> r[i] == UpperChar(s[i])
  {
    seq(|s|, i requires 0 <= i < |s| => UpperChar(s[i]))
  }

  // ---------------------------------------------------------------------
  // Whitespace, as String.prototype.trim strips it

  predicate IsWhitespace(c: char) {
    c == ' ' || c == '\t' || c == '\n' || c == '\r' || c == '\U{000B}' || c == '\U{000C}'
    || c == '\U{00A0}' || c == '\U{FEFF}' || c == '\U{1680}' || ('\U{2000}' <= c <= '\U{200A}')
    || c == '\U{2028}' || c == '\U{2029}' || c == '\U{202F}' || c == '\U{205F}' || c == '\U{3000}'
  }

  /** `s.trim().length === 0`, i.e. `!s.trim()` */
  predicate IsBlank(s: string) {
    forall i :: 0 <= i < |s| ==> IsWhitespace(s[i])
  }

  // ---------------------------------------------------------------------
  // Substring search: `hay.includes(needle)`

  predicate Contains(hay: string, needle: string)
    decreases |hay|
  {
    needle <= hay || (|hay| > 0 && Contains(hay[1..], needle))
  }

  // ---------------------------------------------------------------------
  // `s.split(sep)` for a non-empty separator, and `parts.join(sep)`

  /** A needle longer than the haystack never occurs in it. */
  lemma {:induction false} ContainsNeedsRoom(hay: string, needle: string)
    requires |hay| < |needle|
    ensures !Contains(hay, needle)
    decreases |hay|
  {
    if |hay| > 0 {
      ContainsNeedsRoom(hay[1..], needle);
    }
  }

  /** Leftmost, non-overlapping split; the first piece is where the string
      starts, and a string without `sep` yields `[s]`. */
  function SplitOn(s: string, sep: string): (r: seq<string>)
    requires |sep| > 0
    ensures |r| >= 1
    ensures r[0] <= s
    decreases |s|
  {
    if |s| < |sep| then [s]
    else if sep <= s then [""] + SplitOn(s[|sep|..], sep)
    else
      var rest := SplitOn(s[1..], sep);
      assert s == [s[0]] + s[1..];
      [[s[0]] + rest[0]] + rest[1..]
  }

  /** No piece holds an occurrence of the separator, whatever its length:
      each cut is made at the first occurrence after the previous one. */
  lemma {:induction false} SplitPiecesAvoidOccurrence(s: string, sep: string)
    requires |sep| > 0
    ensures forall k :: 0 <= k < |SplitOn(s, sep)| ==> !Contains(SplitOn(s, sep)[k], sep)
    decreases |s|
  {
    if |s| < |sep| {
      ContainsNeedsRoom(s, sep);
    } else if sep <= s {
      SplitPiecesAvoidOccurrence(s[|sep|..], sep);
      var rest := SplitOn(s[|sep|..], sep);
      assert SplitOn(s, sep) == [""] + rest;
      ContainsNeedsRoom("", sep);
    } else {
      SplitPiecesAvoidOccurrence(s[1..], sep);
      var rest := SplitOn(s[1..], sep);
      var first := [s[0]] + rest[0];
      assert SplitOn(s, sep) == [first] + rest[1..];
      assert first[1..] == rest[0];
      assert first <= s;
      assert !(sep <= first);
    }
  }

  function Join(parts: seq<string>, sep: string): string {
    if |parts| == 0 then ""
    else if |parts| == 1 then parts[0]
    else parts[0] + sep + Join(parts[1..], sep)
  }

  /** Splitting and joining again on the same separator restores the string. */
  lemma {:induction false} JoinSplit(s: string, sep: string)
    requires |sep| > 0
    ensures Join(SplitOn(s, sep), sep) == s
    decreases |s|
  {
    if |s| < |sep| {
    } else if sep <= s {
      var tail := s[|sep|..];
      JoinSplit(tail, sep);
      var rest := SplitOn(tail, sep);
      assert SplitOn(s, sep) == [""] + rest;
      assert ([""] + rest)[1..] == rest;
      assert s == sep + tail;
    } else {
      var rest := SplitOn(s[1..], sep);
      var r := [[s[0]] + rest[0]] + rest[1..];
      assert SplitOn(s, sep) == r;
      JoinSplit(s[1..], sep);
      if |rest| == 1 {
        assert Join(r, sep) == [s[0]] + s[1..];
      } else {
        assert r[1..] == rest[1..];
        assert Join(rest, sep) == rest[0] + sep + Join(rest[1..], sep);
        assert Join(r, sep) == ([s[0]] + rest[0]) + sep + Join(rest[1..], sep);
      }
      assert s == [s[0]] + s[1..];
    }
  }

  /** With a one-character separator, no piece contains that character. */
  lemma {:induction false} SplitPiecesAvoidSeparator(s: string, sep: string)
    requires |sep| == 1
    ensures forall k, j :: 0 <= k < |SplitOn(s, sep)| && 0 <= j < |SplitOn(s, sep)[k]| ==> SplitOn(s, sep)[k][j] != sep[0]
    decreases |s|
  {
    if |s| < |sep| {
    } else if sep <= s {
      SplitPiecesAvoidSeparator(s[1..], sep);
    } else {
      SplitPiecesAvoidSeparator(s[1..], sep);
      assert s[0] != sep[0];
    }
  }

  /** A word free of the one-character separator is split off whole. */
  lemma {:induction false} SplitLeadingWord(w: string, sep: string, rest: string)
    requires |sep| == 1
    requires forall j :: 0 <= j < |w| ==> w[j] != sep[0]
    ensures SplitOn(w + sep + rest, sep) == [w] + SplitOn(rest, sep)
    decreases |w|
  {
    var s := w + sep + rest;
    if |w| == 0 {
      assert s[|sep|..] == rest;
    } else {
      assert s[0] == w[0];
      assert !(sep <= s);
      assert s[1..] == w[1..] + sep + rest;
      SplitLeadingWord(w[1..], sep, rest);
      assert [s[0]] + w[1..] == w;
    }
  }

  /** A string free of the separator is not split at all. */
  lemma {:induction false} SplitWithoutSeparator(w: string, sep: string)
    requires |sep| == 1
    requires forall j :: 0 <= j < |w| ==> w[j] != sep[0]
    ensures SplitOn(w, sep) == [w]
    decreases |w|
  {
    if |w| >= 1 {
      assert w[0] != sep[0];
      assert !(sep <= w);
      SplitWithoutSeparator(w[1..], sep);
      assert [w[0]] + w[1..] == w;
    }
  }

  // ---------------------------------------------------------------------
  // `s.replace(pat, rep)` with a string pattern: only the first occurrence

  function ReplaceFirst(s: string, pat: string, rep: string): string
    requires |pat| > 0
    decreases |s|
  {
    if |s| < |pat| then s
    else if pat <= s then rep + s[|pat|..]
    else [s[0]] + ReplaceFirst(s[1..], pat, rep)
  }

  /** Removing a leading pattern gives back what followed it. */
  lemma StripLeading(pat: string, rest: string)
    requires |pat| > 0
    ensures ReplaceFirst(pat + rest, pat, "") == rest
  {
    assert pat <= pat + rest;
    assert (pat + rest)[|pat|..] == rest;
  }

  // ---------------------------------------------------------------------
  // The first and last pieces of a split: `parts[0]` and `parts.pop()`

  /** The first piece is where the joined string starts. */
  lemma FirstPieceIsPrefix(parts: seq<string>, sep: string)
    requires |parts| >= 1
    ensures parts[0] <= Join(parts, sep)
  {
  }

  /** The last piece is where the joined string ends; with two pieces or
      more, the separator stands right before it. */
  lemma {:induction false} LastPieceIsSuffix(parts: seq<string>, sep: string)
    requires |parts| >= 1
    ensures var j := Join(parts, sep); var last := parts[|parts| - 1];
            |last| <= |j| && j[|j| - |last|..] == last
    ensures var j := Join(parts, sep); var last := parts[|parts| - 1];
            |parts| >= 2 ==> |last| + |sep| <= |j| && j[|j| - |last| - |sep|..|j| - |last|] == sep
  {
    if |parts| > 1 {
      LastPieceIsSuffix(parts[1..], sep);
      var last := parts[|parts| - 1];
      assert parts[1..][|parts[1..]| - 1] == last;
      var tail := Join(parts[1..], sep);
      var j := Join(parts, sep);
      assert j == parts[0] + sep + tail;
      if |parts| == 2 {
        assert tail == last;
      }
      assert j[|j| - |last| - |sep|..|j| - |last|] == sep by {
        if |parts| == 2 {
          assert j == (parts[0] + sep) + last;
        } else {
          assert j == (parts[0] + sep) + tail;
          assert j[|j| - |tail|..] == tail;
        }
      }
    }
  }

  /** Whatever precedes the final separator, the text after it is the last
      piece, provided it holds no separator itself. */
  lemma {:induction false} SplitLastPiece(a: string, sep: string, w: string)
    requires |sep| == 1
    requires forall j :: 0 <= j < |w| ==> w[j] != sep[0]
    ensures |SplitOn(a + sep + w, sep)| >= 2
    ensures SplitOn(a + sep + w, sep)[|SplitOn(a + sep + w, sep)| - 1] == w
    decreases |a|
  {
    var s := a + sep + w;
    if |a| == 0 {
      assert sep <= s;
      assert s[|sep|..] == w;
      SplitWithoutSeparator(w, sep);
    } else {
      assert s[1..] == a[1..] + sep + w;
      SplitLastPiece(a[1..], sep, w);
      if sep <= s {
        assert s[|sep|..] == s[1..];
      } else {
        var rest := SplitOn(s[1..], sep);
        assert SplitOn(s, sep) == [[s[0]] + rest[0]] + rest[1..];
      }
    }
  }

  /** A string in which the separator never occurs is not split at all. */
  lemma {:induction false} SplitWithoutOccurrence(s: string, sep: string)
    requires |sep| > 0
    requires !Contains(s, sep)
    ensures SplitOn(s, sep) == [s]
    decreases |s|
  {
    if |s| >= |sep| {
      SplitWithoutOccurrence(s[1..], sep);
      assert [s[0]] + s[1..] == s;
    }
  }

  // ---------------------------------------------------------------------
  // Order-preserving selections: what `filter` returns

  /** `a` is `b` with some elements dropped, order kept. */
  predicate IsSubsequence<T(==)>(a: seq<T>, b: seq<T>)
    decreases |b|
  {
    a == [] || (b != [] && ((a[0] == b[0] && IsSubsequence(a[1..], b[1..])) || IsSubsequence(a, b[1..])))
  }

  lemma {:induction false} SubsequenceShorter<T>(a: seq<T>, b: seq<T>)
    requires IsSubsequence(a, b)
    ensures |a| <= |b|
    decreases |b|
  {
    if a != [] {
      if a[0] == b[0] && IsSubsequence(a[1..], b[1..]) {
        SubsequenceShorter(a[1..], b[1..]);
      } else {
        SubsequenceShorter(a, b[1..]);
      }
    }
  }

  /** A subsequence of the tail is a subsequence of the whole. */
  lemma SubsequenceDropHead<T>(a: seq<T>, b: seq<T>)
    requires b != [] && IsSubsequence(a, b[1..])
    ensures IsSubsequence(a, b)
  {
  }
}
