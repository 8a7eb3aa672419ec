/**
 * `ui.rs`, the parts that decide what the message panel shows: how a
 * message's text is cut into styled spans, the text of a progress bar, the
 * colour of a message's author, and the order of the messages. Layout,
 * drawing and the video panel are not modelled.
 */
module Ui {
  import opened Wrappers
  import opened Text
  import opened Commands

  /** The styles the modelled spans use. */
  datatype SpanStyle = Plain | CommandStyle | ProgressStyle

  /** A `Span`: a piece of text and its style. */
  datatype Span = Span(text: string, style: SpanStyle)

  /** The text the spans show, left to right. */
  function Rendered(spans: seq<Span>): string
  {
    if spans == [] then "" else spans[0].text + Rendered(spans[1..])
  }

  // ---------------------------------------------------------------- message content

  /** The spans of the tokens: the verb in the command style, every later token after one space. */
  function CommandSpans(words: seq<string>): (r: seq<Span>)
    ensures |r| == |words|
  {
    seq(|words|, i requires 0 <= i < |words| =>
      if i == 0 then Span(words[0], CommandStyle) else Span(" " + words[i], Plain))
  }

  /**
   * `parse_content`: a message that starts with the command prefix is shown
   * token by token, the verb styled as a command; any other message is one
   * plain span holding all of it.
   */
  function ParseContent(content: string): (r: seq<Span>)
    ensures !(|CommandPrefix| <= |content| && content[..|CommandPrefix|] == CommandPrefix) ==>
      r == [Span(content, Plain)]
    ensures |CommandPrefix| <= |content| && content[..|CommandPrefix|] == CommandPrefix ==>
      && |r| == |SplitWhitespace(content)| >= 1
      && r[0].style == CommandStyle && r[0].text != [] && r[0].text[0] == '?'
      && forall i :: 1 <= i < |r| ==> r[i].style == Plain
  {
    if |CommandPrefix| <= |content| && content[..|CommandPrefix|] == CommandPrefix then
      SplitLeadingToken(content);
      CommandSpans(SplitWhitespace(content))
    else [Span(content, Plain)]
  }

  /** A string that starts with a non-whitespace character has a first token, which starts with that character. */
  lemma SplitLeadingToken(s: string)
    requires s != [] && !IsWhitespace(s[0])
    ensures |SplitWhitespace(s)| >= 1 && SplitWhitespace(s)[0][0] == s[0]
  {
    var n := WordLength(s);
    assert s[..n][0] == s[0];
  }

  /** The command spans show the tokens joined by single spaces. */
  lemma {:induction false} RenderedCommandSpans(words: seq<string>)
    ensures Rendered(CommandSpans(words)) == JoinWords(words)
    decreases |words|
  {
    if |words| > 1 {
      var r := CommandSpans(words);
      RenderedCommandSpans(words[1..]);
      assert r[1..] == TailSpans(words[1..]);
      RenderedTailSpans(words[1..]);
      assert Rendered(r) == words[0] + Rendered(r[1..]);
      assert Rendered(r[1..]) == " " + JoinWords(words[1..]);
      assert words[0] + " " + JoinWords(words[1..]) == words[0] + (" " + JoinWords(words[1..]));
    } else if |words| == 1 {
      var r := CommandSpans(words);
      assert r[1..] == [];
      assert r[0].text + "" == words[0];
    }
  }

  /** Every token after a single space. */
  function TailSpans(words: seq<string>): (r: seq<Span>)
    ensures |r| == |words|
  {
    seq(|words|, i requires 0 <= i < |words| => Span(" " + words[i], Plain))
  }

  lemma {:induction false} RenderedTailSpans(words: seq<string>)
    requires words != []
    ensures Rendered(TailSpans(words)) == " " + JoinWords(words)
    decreases |words|
  {
    var r := TailSpans(words);
    if |words| == 1 {
      assert r[1..] == [];
      assert r[0].text + "" == " " + words[0];
    } else {
      assert r[1..] == TailSpans(words[1..]);
      RenderedTailSpans(words[1..]);
      assert Rendered(r) == " " + words[0] + (" " + JoinWords(words[1..]));
    }
  }

  /**
   * What a message shows: a command line with its whitespace runs made
   * single spaces, so it splits into the same tokens it was typed with;
   * any other message exactly as typed.
   */
  lemma ParseContentShows(content: string)
    ensures var shown := Rendered(ParseContent(content));
      && (|CommandPrefix| <= |content| && content[..|CommandPrefix|] == CommandPrefix ==>
            && shown == JoinWords(SplitWhitespace(content))
            && SplitWhitespace(shown) == SplitWhitespace(content))
      && (!(|CommandPrefix| <= |content| && content[..|CommandPrefix|] == CommandPrefix) ==> shown == content)
  {
    if |CommandPrefix| <= |content| && content[..|CommandPrefix|] == CommandPrefix {
      RenderedCommandSpans(SplitWhitespace(content));
      SplitJoin(SplitWhitespace(content));
    } else {
      assert Rendered([Span(content, Plain)]) == content + Rendered([]);
    }
  }

  // ---------------------------------------------------------------- progress bar

  /** The progress states the bar is drawn for. */
  datatype ProgressView = Started | Working(total: nat, current: nat) | Completed

  /** The bar's width in cells for a panel of the given width. */
  function BarWidth(panelWidth: nat): nat
    requires panelWidth >= 20
  {
    panelWidth - 20
  }

  /**
   * The number of filled cells: none while pending, all once done, and the
   * fraction current/total of them, rounded down, while working (a zero
   * total gives none, as the floating-point NaN converts to 0).
   */
  function Filled(panelWidth: nat, progress: ProgressView): (n: nat)
    requires panelWidth >= 20
    requires progress.Working? ==> progress.current <= progress.total
    ensures n <= BarWidth(panelWidth)
  {
    match progress
    case Started => 0
    case Completed => BarWidth(panelWidth)
    case Working(total, current) =>
      if total == 0 then 0
      else
        MulDivBound(current, total, BarWidth(panelWidth));
        current * BarWidth(panelWidth) / total
  }

  lemma MulDivBound(current: nat, total: nat, width: nat)
    requires 0 < total && current <= total
    ensures current * width / total <= width
  {
    assert current * width <= total * width by {
      MulMonotone(current, total, width);
    }
    DivBound(current * width, total, width);
  }

  lemma MulMonotone(a: nat, b: nat, c: nat)
    requires a <= b
    ensures a * c <= b * c
  {
  }

  lemma DivBound(x: nat, total: nat, width: nat)
    requires 0 < total && x <= total * width
    ensures x / total <= width
  {
  }

  /** Division by a positive number has one quotient and remainder. */
  lemma DivUnique(x: nat, d: nat, q: nat, r: nat)
    requires d > 0 && r < d && x == q * d + r
    ensures x / d == q && x % d == r
  {
    var q' := x / d;
    assert q * d < (q' + 1) * d;
    assert q' * d < (q + 1) * d;
    MulLessCancel(q, q' + 1, d);
    MulLessCancel(q', q + 1, d);
  }

  lemma MulLessCancel(a: nat, b: nat, d: nat)
    requires d > 0 && a * d < b * d
    ensures a < b
  {
  }

  function Title(progress: ProgressView): string
  {
    match progress
    case Started => "Pending: "
    case Working(_, _) => "Sending: "
    case Completed => "Done! "
  }

  /** `n` copies of c. */
  function Repeat(c: char, n: nat): (r: string)
    ensures |r| == n && forall i :: 0 <= i < n ==> r[i] == c
  {
    seq(n, _ => c)
  }

  /**
   * `add_progress_bar`: the title, then the bar in brackets: one cell per
   * column of the panel beyond 20, the filled ones `#` and the rest `-`. The
   * panel must be at least 20 columns (the subtraction is unsigned), and a
   * working transfer must not be past its total (otherwise the remaining
   * cell count underflows).
   */
  function AddProgressBar(panelWidth: nat, progress: ProgressView): (r: seq<Span>)
    requires panelWidth >= 20
    requires progress.Working? ==> progress.current <= progress.total
    ensures |r| == 2 && r[0] == Span(Title(progress), ProgressStyle) && r[1].style == ProgressStyle
    ensures var bar := r[1].text;
      && |bar| == BarWidth(panelWidth) + 2
      && bar[0] == '[' && bar[|bar| - 1] == ']'
      && (forall i :: 1 <= i <= BarWidth(panelWidth) ==> (bar[i] == '#' <==> i <= Filled(panelWidth, progress)))
      && (forall i :: 1 <= i <= BarWidth(panelWidth) ==> (bar[i] == '-' <==> i > Filled(panelWidth, progress)))
  {
    var cur := Filled(panelWidth, progress);
    var rem := BarWidth(panelWidth) - cur;
    [Span(Title(progress), ProgressStyle), Span("[" + Repeat('#', cur) + Repeat('-', rem) + "]", ProgressStyle)]
  }

  /** A pending transfer shows an empty bar, a finished one a full bar. */
  lemma ProgressEnds(panelWidth: nat, total: nat)
    requires panelWidth >= 20
    ensures Filled(panelWidth, Started) == 0
    ensures Filled(panelWidth, Completed) == BarWidth(panelWidth)
    ensures total > 0 ==> Filled(panelWidth, Working(total, total)) == BarWidth(panelWidth)
    ensures Filled(panelWidth, Working(total, 0)) == 0
  {
    if total > 0 {
      DivUnique(total * BarWidth(panelWidth), total, BarWidth(panelWidth), 0);
    }
  }

  /** The bar never moves back while a transfer advances. */
  lemma ProgressMonotone(panelWidth: nat, total: nat, a: nat, b: nat)
    requires panelWidth >= 20 && a <= b <= total
    ensures Filled(panelWidth, Working(total, a)) <= Filled(panelWidth, Working(total, b))
  {
    if total > 0 {
      var w := BarWidth(panelWidth);
      MulMonotone(a, b, w);
      DivMonotone(a * w, b * w, total);
    }
  }

  lemma DivMonotone(x: nat, y: nat, d: nat)
    requires x <= y && d > 0
    ensures x / d <= y / d
  {
    var qx, qy := x / d, y / d;
    assert qx * d <= x;
    assert y < (qy + 1) * d;
    MulLessCancel(qx, qy + 1, d);
  }

  // ---------------------------------------------------------------- colours and order

  /**
   * The colour of a message's author: a user with an id takes the palette's
   * colour at that id, cycling through the palette; the local user, who has
   * none, takes its own colour. `None` is the panic of the remainder by zero
   * when a user with an id meets an empty palette.
   */
  function MessageColor<C>(userId: Option<nat>, palette: seq<C>, mine: C): (r: Option<C>)
    ensures r.None? <==> userId.Some? && |palette| == 0
    ensures userId.None? ==> r == Some(mine)
    ensures userId.Some? && r.Some? ==> r.value in palette
  {
    match userId
    case None => Some(mine)
    case Some(id) => if |palette| == 0 then None else Some(palette[id % |palette|])
  }

  /**
   * Users with nearby ids are told apart: with distinct palette colours, two
   * ids less than a palette's length apart get different colours, and ids a
   * whole palette apart share one.
   */
  lemma ColorsCycle<C>(palette: seq<C>, mine: C, a: nat, b: nat)
    requires |palette| > 0
    requires forall i, j :: 0 <= i < j < |palette| ==> palette[i] != palette[j]
    ensures a < b < a + |palette| ==> MessageColor(Some(a), palette, mine) != MessageColor(Some(b), palette, mine)
    ensures MessageColor(Some(a + |palette|), palette, mine) == MessageColor(Some(a), palette, mine)
  {
    var n := |palette|;
    var q, r := a / n, a % n;
    if a < b < a + n {
      if r + (b - a) < n {
        DivUnique(b, n, q, r + (b - a));
      } else {
        DivUnique(b, n, q + 1, r + (b - a) - n);
      }
      DistinctAt(palette, a % n, b % n);
    }
    DivUnique(a + n, n, q + 1, r);
  }

  lemma DistinctAt<C>(palette: seq<C>, i: nat, j: nat)
    requires i < |palette| && j < |palette| && i != j
    requires forall i, j :: 0 <= i < j < |palette| ==> palette[i] != palette[j]
    ensures palette[i] != palette[j]
  {
    if i > j {
      assert palette[j] != palette[i];
    }
  }

  /** The messages newest first, as the panel lists them. */
  function NewestFirst<M>(messages: seq<M>): (r: seq<M>)
    ensures |r| == |messages|
    ensures forall i :: 0 <= i < |r| ==> r[i] == messages[|messages| - 1 - i]
  {
    if messages == [] then []
    else [messages[|messages| - 1]] + NewestFirst(messages[..|messages| - 1])
  }

  /** A message just logged goes to the top of the panel, above all the earlier ones in the same order. */
  lemma NewestOnTop<M>(messages: seq<M>, latest: M)
    ensures NewestFirst(messages + [latest]) == [latest] + NewestFirst(messages)
  {
    var l, r := NewestFirst(messages + [latest]), [latest] + NewestFirst(messages);
    assert forall i :: 0 <= i < |l| ==> l[i] == r[i];
  }

  /** Listing twice gives back the log's order. */
  lemma NewestFirstTwice<M>(messages: seq<M>)
    ensures NewestFirst(NewestFirst(messages)) == messages
  {
  }
}
