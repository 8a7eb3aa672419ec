/**
 * Whitespace splitting as Rust's `str::split_whitespace` does it: maximal runs
 * of non-whitespace characters, where whitespace is the Unicode White_Space
 * property (`char::is_whitespace`). Used by the command registry, by the
 * older `?send` path and by the message renderer.
 */
module Text {

  /** `char::is_whitespace`: the characters with the Unicode White_Space property. */
  predicate IsWhitespace(c: char)
  {
    ('\U{9}' <= c <= '\U{D}') || c == ' ' || c == '\U{85}' || c == '\U{A0}' || c == '\U{1680}'
    || ('\U{2000}' <= c <= '\U{200A}') || c == '\U{2028}' || c == '\U{2029}' || c == '\U{202F}'
    || c == '\U{205F}' || c == '\U{3000}'
  }

  /** A token: non-empty, with no whitespace in it. */
  predicate IsWord(w: string)
  {
    w != [] && forall i :: 0 <= i < |w| ==> !IsWhitespace(w[i])
  }

  predicate AllWhitespace(s: string)
  {
    forall i :: 0 <= i < |s| ==> IsWhitespace(s[i])
  }

  /** The number of non-whitespace characters at the front of s. */
  function WordLength(s: string): (n: nat)
    ensures n <= |s|
    ensures forall i :: 0 <= i < n ==> !IsWhitespace(s[i])
    ensures n < |s| ==> IsWhitespace(s[n])
  {
    if s == [] || IsWhitespace(s[0]) then 0 else 1 + WordLength(s[1..])
  }

  /** `split_whitespace().collect()`: the tokens of s, in order. */
  function SplitWhitespace(s: string): (r: seq<string>)
    ensures forall k :: 0 <= k < |r| ==> IsWord(r[k])
    decreases |s|
  {
    if s == [] then []
    else if IsWhitespace(s[0]) then SplitWhitespace(s[1..])
    else
      var n := WordLength(s);
      assert s[..n][0] == s[0];
      [s[..n]] + SplitWhitespace(s[n..])
  }

  /** Tokens separated by single spaces. */
  function JoinWords(ws: seq<string>): (r: string)
  {
    if ws == [] then ""
    else if |ws| == 1 then ws[0]
    else ws[0] + " " + JoinWords(ws[1..])
  }

  /** All characters of s that are not whitespace, in order. */
  function RemoveWhitespace(s: string): (r: string)
    ensures |r| <= |s|
  {
    if s == [] then ""
    else if IsWhitespace(s[0]) then RemoveWhitespace(s[1..])
    else [s[0]] + RemoveWhitespace(s[1..])
  }

  function Concat(ws: seq<string>): string
  {
    if ws == [] then "" else ws[0] + Concat(ws[1..])
  }

  lemma {:induction false} WordLengthOfWord(w: string, t: string)
    requires IsWord(w) && (t == [] || IsWhitespace(t[0]))
    ensures WordLength(w + t) == |w|
    decreases |w|
  {
    if |w| > 1 {
      assert (w + t)[1..] == w[1..] + t;
      WordLengthOfWord(w[1..], t);
    } else {
      assert (w + t)[1..] == t;
    }
  }

  /** A word followed by whitespace (or nothing) splits off as one token. */
  lemma SplitWord(w: string, t: string)
    requires IsWord(w) && (t == [] || IsWhitespace(t[0]))
    ensures SplitWhitespace(w + t) == [w] + SplitWhitespace(t)
  {
    WordLengthOfWord(w, t);
    assert (w + t)[..|w|] == w;
    assert (w + t)[|w|..] == t;
  }

  /** Leading whitespace is skipped. */
  lemma {:induction false} SplitLeadingWhitespace(ws: string, s: string)
    requires AllWhitespace(ws)
    ensures SplitWhitespace(ws + s) == SplitWhitespace(s)
    decreases |ws|
  {
    if ws != [] {
      assert (ws + s)[1..] == ws[1..] + s;
      SplitLeadingWhitespace(ws[1..], s);
    } else {
      assert ws + s == s;
    }
  }

  /** Splitting tokens joined by single spaces gives back the tokens. */
  lemma {:induction false} SplitJoin(ws: seq<string>)
    requires forall k :: 0 <= k < |ws| ==> IsWord(ws[k])
    ensures SplitWhitespace(JoinWords(ws)) == ws
  {
    if |ws| == 1 {
      SplitWord(ws[0], "");
      assert ws[0] + "" == ws[0];
    } else if |ws| > 1 {
      var rest := JoinWords(ws[1..]);
      ConcatAssoc(ws[0], " ", rest);
      SplitWord(ws[0], " " + rest);
      SplitLeadingWhitespace(" ", rest);
      SplitJoin(ws[1..]);
    }
  }

  /** Splitting loses exactly the whitespace: the tokens put together are the other characters. */
  lemma {:induction false} SplitKeepsCharacters(s: string)
    ensures Concat(SplitWhitespace(s)) == RemoveWhitespace(s)
    decreases |s|
  {
    if s != [] {
      if IsWhitespace(s[0]) {
        SplitKeepsCharacters(s[1..]);
      } else {
        var n := WordLength(s);
        SplitKeepsCharacters(s[n..]);
        WordKeepsCharacters(s, n);
        assert Concat([s[..n]] + SplitWhitespace(s[n..])) == s[..n] + Concat(SplitWhitespace(s[n..]));
      }
    }
  }

  /** Removing whitespace from a word-then-rest keeps the word in front. */
  lemma {:induction false} WordKeepsCharacters(s: string, n: nat)
    requires n <= |s| && forall i :: 0 <= i < n ==> !IsWhitespace(s[i])
    ensures RemoveWhitespace(s) == s[..n] + RemoveWhitespace(s[n..])
    decreases n
  {
    if n > 0 {
      WordKeepsCharacters(s[1..], n - 1);
      assert s[1..][..n - 1] == s[1..n];
      assert s[1..][n - 1..] == s[n..];
      assert s[..n] == [s[0]] + s[1..n];
    }
  }

  lemma {:induction false} ConcatAppend(ws: seq<string>, w: string)
    ensures Concat(ws + [w]) == Concat(ws) + w
  {
    if ws == [] {
      assert [] + [w] == [w];
    } else {
      assert (ws + [w])[1..] == ws[1..] + [w];
      ConcatAppend(ws[1..], w);
    }
  }

  // ---------------------------------------------------------------- splitting on one separator

  /** The number of characters before the first sep in s (all of s when there is none). */
  function SegmentLength(s: string, sep: char): (n: nat)
    ensures n <= |s|
    ensures n < |s| ==> s[n] == sep
  {
    if s == [] || s[0] == sep then 0 else 1 + SegmentLength(s[1..], sep)
  }

  /** No separator comes before the first one. */
  lemma {:induction false} SegmentFree(s: string, sep: char)
    ensures forall i :: 0 <= i < SegmentLength(s, sep) ==> s[i] != sep
    decreases |s|
  {
    if s != [] && s[0] != sep {
      SegmentFree(s[1..], sep);
      assert forall i :: 1 <= i < SegmentLength(s, sep) ==> s[i] == s[1..][i - 1];
    }
  }

  /** `str::split(sep)`: the pieces between separators, empty pieces included. */
  function Split(s: string, sep: char): (r: seq<string>)
    ensures |r| >= 1
    decreases |s|
  {
    var n := SegmentLength(s, sep);
    if n == |s| then [s] else [s[..n]] + Split(s[n + 1..], sep)
  }

  /** No piece holds the separator. */
  lemma {:induction false} SplitPiecesFree(s: string, sep: char)
    ensures forall k :: 0 <= k < |Split(s, sep)| ==> sep !in Split(s, sep)[k]
    decreases |s|
  {
    var n := SegmentLength(s, sep);
    SegmentFree(s, sep);
    assert sep !in s[..n];
    if n < |s| {
      SplitPiecesFree(s[n + 1..], sep);
    }
  }

  /** Pieces joined with sep between them, and none after the last. */
  function JoinWith(ls: seq<string>, sep: char): string
  {
    if ls == [] then ""
    else if |ls| == 1 then ls[0]
    else ls[0] + [sep] + JoinWith(ls[1..], sep)
  }

  lemma {:induction false} SegmentLengthOfPiece(a: string, sep: char, b: string)
    requires sep !in a
    ensures SegmentLength(a + [sep] + b, sep) == |a|
    decreases |a|
  {
    if a != [] {
      assert (a + [sep] + b)[1..] == a[1..] + [sep] + b;
      SegmentLengthOfPiece(a[1..], sep, b);
    }
  }

  lemma {:induction false} SegmentLengthWhole(a: string, sep: char)
    requires sep !in a
    ensures SegmentLength(a, sep) == |a|
    decreases |a|
  {
    if a != [] {
      SegmentLengthWhole(a[1..], sep);
    }
  }

  /** Splitting distributes over a separator. */
  lemma {:induction false} SplitAround(a: string, sep: char, b: string)
    ensures Split(a + [sep] + b, sep) == Split(a, sep) + Split(b, sep)
    decreases |a|
  {
    if SegmentLength(a, sep) == |a| {
      SplitWholeFirst(a, sep, b);
    } else {
      var n := SegmentLength(a, sep);
      SplitCutFirst(a, sep, b);
      SplitAround(a[n + 1..], sep, b);
      ConsAppend(a[..n], Split(a[n + 1..], sep), Split(b, sep));
    }
  }

  /** Regrouping a concatenation. */
  lemma ConcatAssoc<T>(a: seq<T>, b: seq<T>, c: seq<T>)
    ensures a + (b + c) == a + b + c
  {
  }

  lemma ConsAppend<T>(x: T, l: seq<T>, m: seq<T>)
    ensures [x] + (l + m) == ([x] + l) + m
  {
  }

  /** With no separator in a, the first piece is all of a. */
  lemma SplitWholeFirst(a: string, sep: char, b: string)
    requires SegmentLength(a, sep) == |a|
    ensures Split(a + [sep] + b, sep) == [a] + Split(b, sep)
    ensures Split(a, sep) == [a]
  {
    var s := a + [sep] + b;
    SegmentFree(a, sep);
    SegmentLengthOfPiece(a, sep, b);
    assert s[..|a|] == a && s[|a| + 1..] == b;
  }

  /** With a separator in a, the first piece ends before a's first separator, whatever follows a. */
  lemma SplitCutFirst(a: string, sep: char, b: string)
    requires SegmentLength(a, sep) < |a|
    ensures var n := SegmentLength(a, sep);
      && Split(a + [sep] + b, sep) == [a[..n]] + Split(a[n + 1..] + [sep] + b, sep)
      && Split(a, sep) == [a[..n]] + Split(a[n + 1..], sep)
  {
    var s := a + [sep] + b;
    var n := SegmentLength(a, sep);
    SegmentLengthBefore(a, sep, b);
    SliceAround(a, sep, b, n);
    SplitUnfold(s, sep);
    SplitUnfold(a, sep);
  }

  /** Cutting a + [x] + b at a position inside a. */
  lemma SliceAround<T>(a: seq<T>, x: T, b: seq<T>, n: nat)
    requires n < |a|
    ensures (a + [x] + b)[..n] == a[..n]
    ensures (a + [x] + b)[n + 1..] == a[n + 1..] + [x] + b
  {
  }

  /** The first separator of a stays the first one whatever follows a. */
  lemma SegmentLengthBefore(a: string, sep: char, b: string)
    requires SegmentLength(a, sep) < |a|
    ensures SegmentLength(a + [sep] + b, sep) == SegmentLength(a, sep)
  {
    assert a + [sep] + b == a + ([sep] + b);
    SegmentPrefix(a, sep, [sep] + b);
  }

  /** `Split` one piece at a time. */
  lemma SplitUnfold(s: string, sep: char)
    requires SegmentLength(s, sep) < |s|
    ensures Split(s, sep) == [s[..SegmentLength(s, sep)]] + Split(s[SegmentLength(s, sep) + 1..], sep)
  {
  }

  /** Appending text after a separator does not move the first separator. */
  lemma {:induction false} SegmentPrefix(a: string, sep: char, t: string)
    requires SegmentLength(a, sep) < |a|
    ensures SegmentLength(a + t, sep) == SegmentLength(a, sep)
    decreases |a|
  {
    if a[0] != sep {
      assert (a + t)[1..] == a[1..] + t;
      SegmentPrefix(a[1..], sep, t);
    }
  }

  /** Pieces without the separator come back out of splitting their join. */
  lemma {:induction false} SplitJoinWith(ls: seq<string>, sep: char)
    requires |ls| >= 1 && forall k :: 0 <= k < |ls| ==> sep !in ls[k]
    ensures Split(JoinWith(ls, sep), sep) == ls
  {
    SegmentLengthWhole(ls[0], sep);
    if |ls| > 1 {
      SplitAround(ls[0], sep, JoinWith(ls[1..], sep));
      SplitJoinWith(ls[1..], sep);
    }
  }
}
