/**
 * `util.rs`: splitting input text into rows of a display width, turning
 * `send_all` failures into one message, and reporting results on the
 * state's message log.
 */
module Util {
  import opened Wrappers
  import opened Net
  import opened Text
  import opened Session

  // ---------------------------------------------------------------- split_each

  /** The display width of s: the sum of its characters' widths (`UnicodeWidthChar::width`, 0 when it has none). */
  function Width(s: string, charWidth: char -> nat): nat
  {
    if s == [] then 0 else Width(s[..|s| - 1], charWidth) + charWidth(s[|s| - 1])
  }

  /** The condition on which `split_each` closes the current row before adding c. */
  predicate Breaks(index: nat, c: char, width: nat, charWidth: char -> nat)
  {
    (index != 0 && index == width) || index + charWidth(c) > width
  }

  /** No row break happens between the characters of row. */
  predicate Unbroken(row: string, width: nat, charWidth: char -> nat)
  {
    forall j :: 0 < j < |row| ==> !Breaks(Width(row[..j], charWidth), row[j], width, charWidth)
  }

  /** Row i is closed because row i + 1 could not start inside it. */
  predicate RowBreak(rows: seq<string>, i: nat, width: nat, charWidth: char -> nat)
  {
    i + 1 < |rows| && rows[i + 1] != [] && Breaks(Width(rows[i], charWidth), rows[i + 1][0], width, charWidth)
  }

  /** What `split_each` returns, stated without its loop. */
  predicate IsSplit(input: string, rows: seq<string>, width: nat, charWidth: char -> nat)
  {
    && Concat(rows) == input
    && (input == [] <==> rows == [])
    && (forall i :: 0 < i < |rows| ==> rows[i] != [])
    && (rows != [] ==> rows[|rows| - 1] != [])
    && (forall i :: 0 <= i < |rows| ==> Unbroken(rows[i], width, charWidth))
    && (forall i: nat :: i < |rows| - 1 ==> RowBreak(rows, i, width, charWidth))
    && ((rows != [] && rows[0] == []) <==> (input != [] && charWidth(input[0]) > width))
  }

  lemma WidthAppend(s: string, c: char, charWidth: char -> nat)
    ensures Width(s + [c], charWidth) == Width(s, charWidth) + charWidth(c)
  {
    assert (s + [c])[..|s|] == s;
  }

  lemma UnbrokenAppend(row: string, c: char, width: nat, charWidth: char -> nat)
    requires Unbroken(row, width, charWidth)
    requires row != [] ==> !Breaks(Width(row, charWidth), c, width, charWidth)
    ensures Unbroken(row + [c], width, charWidth)
  {
    var r := row + [c];
    forall j | 0 < j < |r|
      ensures !Breaks(Width(r[..j], charWidth), r[j], width, charWidth)
    {
      if j < |row| {
        assert r[..j] == row[..j];
      } else {
        assert r[..j] == row;
      }
    }
  }

  /** The state of `split_each` after the first k characters: closed rows and the open row. */
  ghost predicate Progress(input: string, k: nat, splitted: seq<string>, row: string, width: nat, charWidth: char -> nat)
  {
    && k <= |input|
    && Concat(splitted + [row]) == input[..k]
    && (k == 0 ==> splitted == [] && row == [])
    && (k > 0 ==> row != [])
    && (forall i :: 0 < i < |splitted| ==> splitted[i] != [])
    && (forall i :: 0 <= i < |splitted| ==> Unbroken(splitted[i], width, charWidth))
    && Unbroken(row, width, charWidth)
    && (forall i: nat :: i < |splitted| ==> RowBreak(splitted + [row], i, width, charWidth))
    && (k > 0 ==> ((splitted != [] && splitted[0] == []) <==> charWidth(input[0]) > width))
  }

  lemma ConcatStep(splitted: seq<string>, row: string, c: char, input: string, k: nat)
    requires k < |input| && input[k] == c && Concat(splitted + [row]) == input[..k]
    ensures Concat(splitted + [row] + [[c]]) == input[..k + 1]
    ensures Concat(splitted + [row + [c]]) == input[..k + 1]
  {
    assert input[..k + 1] == input[..k] + [c];
    ConcatAppend(splitted + [row], [c]);
    ConcatAppend(splitted, row);
    ConcatAppend(splitted, row + [c]);
    assert row + [c] == row + [c];
  }

  lemma StepBreak(input: string, k: nat, splitted: seq<string>, row: string, width: nat, charWidth: char -> nat)
    requires Progress(input, k, splitted, row, width, charWidth) && k < |input|
    requires Breaks(Width(row, charWidth), input[k], width, charWidth)
    ensures Progress(input, k + 1, splitted + [row], [input[k]], width, charWidth)
  {
    var c := input[k];
    var s' := splitted + [row];
    ConcatStep(splitted, row, c, input, k);
    assert Unbroken([c], width, charWidth);
    forall i: nat | i < |s'|
      ensures RowBreak(s' + [[c]], i, width, charWidth)
    {
      assert (s' + [[c]])[i] == s'[i];
      if i < |splitted| {
        assert RowBreak(splitted + [row], i, width, charWidth);
      }
    }
  }

  lemma StepExtend(input: string, k: nat, splitted: seq<string>, row: string, width: nat, charWidth: char -> nat)
    requires Progress(input, k, splitted, row, width, charWidth) && k < |input|
    requires !Breaks(Width(row, charWidth), input[k], width, charWidth)
    ensures Progress(input, k + 1, splitted, row + [input[k]], width, charWidth)
  {
    var c := input[k];
    ConcatStep(splitted, row, c, input, k);
    UnbrokenAppend(row, c, width, charWidth);
    forall i: nat | i < |splitted|
      ensures RowBreak(splitted + [row + [c]], i, width, charWidth)
    {
      assert RowBreak(splitted + [row], i, width, charWidth);
      if i + 1 < |splitted| {
        assert (splitted + [row + [c]])[i + 1] == splitted[i + 1];
      } else {
        assert (splitted + [row + [c]])[i + 1] == row + [c];
        assert row != [] || k == 0;
      }
    }
  }

  lemma Finish(input: string, splitted: seq<string>, row: string, width: nat, charWidth: char -> nat)
    requires Progress(input, |input|, splitted, row, width, charWidth)
    ensures IsSplit(input, if row != [] then splitted + [row] else splitted, width, charWidth)
  {
    assert input[..|input|] == input;
    if row == [] {
      assert splitted == [];
    } else {
      var rows := splitted + [row];
      forall i: nat | i < |rows| - 1
        ensures RowBreak(rows, i, width, charWidth)
      {
        assert RowBreak(splitted + [row], i, width, charWidth);
      }
    }
  }

  /**
   * `split_each`: the input broken into rows. A row is closed when it has
   * reached the width exactly, or when the next character would take it past
   * the width; a character wider than the width on its own therefore opens
   * the result with an empty row.
   */
  method SplitEach(input: string, width: nat, charWidth: char -> nat) returns (splitted: seq<string>)
    requires width > 0
    ensures IsSplit(input, splitted, width, charWidth)
  {
    splitted := [];
    var row: string := [];
    var index: nat := 0;
    var k := 0;
    while k < |input|
      invariant Progress(input, k, splitted, row, width, charWidth)
      invariant index == Width(row, charWidth)
    {
      var c := input[k];
      if (index != 0 && index == width) || index + charWidth(c) > width {
        StepBreak(input, k, splitted, row, width, charWidth);
        splitted := splitted + [row];
        row := [];
        index := 0;
      } else {
        StepExtend(input, k, splitted, row, width, charWidth);
      }
      WidthAppend(row, c, charWidth);
      row := row + [c];
      index := index + charWidth(c);
      k := k + 1;
    }
    Finish(input, splitted, row, width, charWidth);
    if row != [] {
      splitted := splitted + [row];
    }
  }

  /** When no single character is wider than the panel, no row is either. */
  lemma RowsFitWidth(input: string, rows: seq<string>, width: nat, charWidth: char -> nat)
    requires IsSplit(input, rows, width, charWidth)
    requires forall i :: 0 <= i < |input| ==> charWidth(input[i]) <= width
    ensures forall i :: 0 <= i < |rows| ==> Width(rows[i], charWidth) <= width
  {
    forall i | 0 <= i < |rows|
      ensures Width(rows[i], charWidth) <= width
    {
      ConcatMember(rows, i);
      var row := rows[i];
      assert forall c :: c in row ==> c in input;
      UnbrokenFits(row, |row|, width, charWidth);
      assert row[..|row|] == row;
    }
  }

  lemma {:induction false} UnbrokenFits(row: string, j: nat, width: nat, charWidth: char -> nat)
    requires j <= |row| && Unbroken(row, width, charWidth)
    requires forall c :: c in row ==> charWidth(c) <= width
    ensures Width(row[..j], charWidth) <= width
  {
    if j > 0 {
      UnbrokenFits(row, j - 1, width, charWidth);
      assert row[..j][..j - 1] == row[..j - 1];
      if j - 1 > 0 {
        assert !Breaks(Width(row[..j - 1], charWidth), row[j - 1], width, charWidth);
      } else {
        assert row[..0] == [];
      }
    }
  }

  lemma {:induction false} ConcatMember(rows: seq<string>, i: nat)
    requires i < |rows|
    ensures forall c :: c in rows[i] ==> c in Concat(rows)
  {
    if i > 0 {
      ConcatMember(rows[1..], i - 1);
    }
  }

  // ---------------------------------------------------------------- stringify_sendall_errors

  /** The line for one endpoint that could not be reached; `show` is the endpoint's `Display`. */
  function FailureLine(show: Endpoint -> string, failure: (Endpoint, string)): string
  {
    "Failed to connect to " + show(failure.0) + ", error: " + failure.1
  }

  function FailureLines(show: Endpoint -> string, failures: seq<(Endpoint, string)>): (r: seq<string>)
    ensures |r| == |failures|
    ensures forall i :: 0 <= i < |r| ==> r[i] == FailureLine(show, failures[i])
  {
    if failures == [] then [] else [FailureLine(show, failures[0])] + FailureLines(show, failures[1..])
  }

  /** Each line followed by a newline. */
  function Terminated(lines: seq<string>): string
  {
    if lines == [] then "" else lines[0] + "\n" + Terminated(lines[1..])
  }

  lemma {:induction false} TerminatedAppend(lines: seq<string>, l: string)
    ensures Terminated(lines + [l]) == Terminated(lines) + l + "\n"
  {
    if lines == [] {
      assert [] + [l] == [l];
    } else {
      assert (lines + [l])[1..] == lines[1..] + [l];
      TerminatedAppend(lines[1..], l);
    }
  }

  lemma {:induction false} TerminatedJoin(lines: seq<string>)
    requires lines != []
    ensures Terminated(lines) == JoinWith(lines, '\n') + "\n"
  {
    if |lines| > 1 {
      TerminatedJoin(lines[1..]);
    }
  }

  lemma TerminatedStep(lines: seq<string>, k: nat)
    requires k < |lines|
    ensures Terminated(lines[..k + 1]) == Terminated(lines[..k]) + lines[k] + "\n"
  {
    assert lines[..k + 1] == lines[..k] + [lines[k]];
    TerminatedAppend(lines[..k], lines[k]);
  }

  lemma TerminatedDropLast(lines: seq<string>)
    requires Terminated(lines) != ""
    ensures Terminated(lines)[..|Terminated(lines)| - 1] == JoinWith(lines, '\n')
  {
    TerminatedJoin(lines);
    var j := JoinWith(lines, '\n');
    assert (j + "\n")[..|j|] == j;
  }

  /**
   * `stringify_sendall_errors`: one failure line per endpoint, in order,
   * separated by newlines, with no newline after the last.
   */
  method StringifySendallErrors(show: Endpoint -> string, failures: seq<(Endpoint, string)>) returns (out: string)
    ensures out == JoinWith(FailureLines(show, failures), '\n')
  {
    ghost var lines := FailureLines(show, failures);
    out := "";
    var k := 0;
    while k < |failures|
      invariant 0 <= k <= |failures|
      invariant out == Terminated(lines[..k])
    {
      var msg := "Failed to connect to " + show(failures[k].0) + ", error: " + failures[k].1;
      out := out + msg;
      out := out + "\n";
      TerminatedStep(lines, k);
      k := k + 1;
    }
    assert lines[..k] == lines;
    if out != "" {
      TerminatedDropLast(lines);
      out := out[..|out| - 1];
    }
  }

  lemma FailureLineNoNewline(show: Endpoint -> string, failure: (Endpoint, string))
    requires '\n' !in show(failure.0) && '\n' !in failure.1
    ensures '\n' !in FailureLine(show, failure)
  {
    var a, b := "Failed to connect to ", ", error: ";
    assert forall i :: 0 <= i < |a| ==> a[i] != '\n';
    assert forall i :: 0 <= i < |b| ==> b[i] != '\n';
    assert FailureLine(show, failure) == a + show(failure.0) + b + failure.1;
  }

  /** Unless an endpoint or error text holds a newline, the lines can be taken apart again. */
  lemma FailureLinesRecoverable(show: Endpoint -> string, failures: seq<(Endpoint, string)>)
    requires failures != []
    requires forall i :: 0 <= i < |failures| ==> '\n' !in show(failures[i].0) && '\n' !in failures[i].1
    ensures Split(JoinWith(FailureLines(show, failures), '\n'), '\n') == FailureLines(show, failures)
  {
    var lines := FailureLines(show, failures);
    forall k | 0 <= k < |lines|
      ensures '\n' !in lines[k]
    {
      FailureLineNoNewline(show, failures[k]);
    }
    SplitJoinWith(lines, '\n');
  }

  // ---------------------------------------------------------------- Reportable

  /** `Result<()>::report_if_err`: nothing on Ok, the error's text as one error message on Err. */
  method ReportIfErr(r: Result<(), string>, state: State)
    modifies state
    ensures r.Ok? ==> state.log == old(state.log)
    ensures r.Err? ==> state.log == old(state.log) + [SystemMessage(r.error, SystemMessageType.Error)]
    ensures state.Flags() == old(state.Flags())
  {
    if r.Err? {
      state.AddSystemErrorMessage(r.error);
    }
  }

  /** `report_if_err` on a `send_all` result: all failures as one aggregated error message. */
  method ReportSendAllIfErr(r: Result<(), seq<(Endpoint, string)>>, show: Endpoint -> string, state: State)
    modifies state
    ensures r.Ok? ==> state.log == old(state.log)
    ensures r.Err? ==> state.log == old(state.log) + [SystemMessage(JoinWith(FailureLines(show, r.error), '\n'), SystemMessageType.Error)]
    ensures state.Flags() == old(state.Flags())
  {
    if r.Err? {
      var text := StringifySendallErrors(show, r.error);
      state.AddSystemErrorMessage(text);
    }
  }

  /** `String::report_err` (and the boxed error's, through its text). */
  method ReportErr(text: string, state: State)
    modifies state
    ensures state.log == old(state.log) + [SystemMessage(text, SystemMessageType.Error)]
    ensures state.Flags() == old(state.Flags())
  {
    state.AddSystemErrorMessage(text);
  }

  /** `String::report_info` */
  method ReportInfo(text: string, state: State)
    modifies state
    ensures state.log == old(state.log) + [SystemMessage(text, Info)]
    ensures state.Flags() == old(state.Flags())
  {
    state.AddSystemInfoMessage(text);
  }

  /** `String::report_warn`: recorded as an info message, not as a warning. */
  method ReportWarn(text: string, state: State)
    modifies state
    ensures state.log == old(state.log) + [SystemMessage(text, Info)]
    ensures state.Flags() == old(state.Flags())
  {
    state.AddSystemInfoMessage(text);
  }
}
