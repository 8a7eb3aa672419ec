/**
 * `commands.rs`: the command registry. An input line that starts with the
 * command prefix is split on whitespace; its first token names the command
 * and the remaining tokens are that command's parameters.
 *
 * A registered command is kept here as a value of the type parameter `C`;
 * finding a command yields the command and the parameters it is given, and
 * the command's own `parse_params` (modelled per command) makes the action.
 */
module Commands {
  import opened Wrappers
  import opened Text

  /** `CommandManager::COMMAND_PREFIX` */
  const CommandPrefix: string := "?"

  /**
   * `find_command_action`: None unless the input starts with the prefix, has
   * a first token after it, and that token names a registered command;
   * otherwise the command and the remaining tokens, in order.
   */
  function FindCommandAction<C(==)>(parsers: map<string, C>, input: string): (r: Option<(C, seq<string>)>)
    ensures r.Some? ==> |input| >= |CommandPrefix| && input[..|CommandPrefix|] == CommandPrefix
    ensures r.Some? ==> r.value.0 in parsers.Values
    ensures r.Some? ==> forall k :: 0 <= k < |r.value.1| ==> IsWord(r.value.1[k])
  {
    if |input| < |CommandPrefix| || input[..|CommandPrefix|] != CommandPrefix then None
    else
      var params := SplitWhitespace(input[|CommandPrefix|..]);
      if params == [] || params[0] !in parsers then None
      else Some((parsers[params[0]], params[1..]))
  }

  /** The registry: command names to commands. */
  class CommandManager<C(==)> {
    var parsers: map<string, C>

    /** `CommandManager::default` */
    constructor()
      ensures parsers == map[]
    {
      parsers := map[];
    }

    /** `with`: register a command under its name, replacing any command of that name. */
    method With(name: string, command: C)
      modifies this
      ensures parsers == old(parsers)[name := command]
    {
      parsers := parsers[name := command];
    }
  }

  /** The command last registered under a name is the one found. */
  lemma WithReplaces<C>(parsers: map<string, C>, verb: string, first: C, second: C, params: seq<string>)
    requires IsWord(verb) && forall k :: 0 <= k < |params| ==> IsWord(params[k])
    ensures FindCommandAction(parsers[verb := first][verb := second], CommandPrefix + JoinWords([verb] + params))
         == Some((second, params))
  {
    FindKnown(parsers[verb := first][verb := second], "", verb, params);
    assert CommandPrefix + "" + JoinWords([verb] + params) == CommandPrefix + JoinWords([verb] + params);
  }

  /** The prefix followed only by whitespace names no command. */
  lemma FindOnlyWhitespace<C>(parsers: map<string, C>, ws: string)
    requires AllWhitespace(ws)
    ensures FindCommandAction(parsers, CommandPrefix + ws) == None
  {
    assert (CommandPrefix + ws)[|CommandPrefix|..] == ws;
    assert ws + [] == ws;
    SplitLeadingWhitespace(ws, []);
  }

  lemma WordsPrepend(verb: string, params: seq<string>)
    requires IsWord(verb) && forall k :: 0 <= k < |params| ==> IsWord(params[k])
    ensures forall k :: 0 <= k < |[verb] + params| ==> IsWord(([verb] + params)[k])
  {
    forall k | 0 <= k < |[verb] + params|
      ensures IsWord(([verb] + params)[k])
    {
      if k > 0 {
        assert ([verb] + params)[k] == params[k - 1];
      }
    }
  }

  /** The tokens after the prefix: whitespace, then words joined by single spaces. */
  lemma SplitCommandLine(ws: string, verb: string, params: seq<string>)
    requires AllWhitespace(ws) && IsWord(verb)
    requires forall k :: 0 <= k < |params| ==> IsWord(params[k])
    ensures SplitWhitespace(ws + JoinWords([verb] + params)) == [verb] + params
  {
    SplitLeadingWhitespace(ws, JoinWords([verb] + params));
    WordsPrepend(verb, params);
    SplitJoin([verb] + params);
  }

  lemma StripPrefix(ws: string, line: string)
    ensures (CommandPrefix + ws + line)[|CommandPrefix|..] == ws + line
  {
    assert CommandPrefix + ws + line == CommandPrefix + (ws + line);
  }

  /**
   * A registered verb after the prefix, with any whitespace before it, is
   * found, and its parameters are the tokens after it.
   */
  lemma FindKnown<C>(parsers: map<string, C>, ws: string, verb: string, params: seq<string>)
    requires AllWhitespace(ws) && IsWord(verb) && verb in parsers
    requires forall k :: 0 <= k < |params| ==> IsWord(params[k])
    ensures FindCommandAction(parsers, CommandPrefix + ws + JoinWords([verb] + params))
         == Some((parsers[verb], params))
  {
    var line := JoinWords([verb] + params);
    var input := CommandPrefix + ws + line;
    StripPrefix(ws, line);
    SplitCommandLine(ws, verb, params);
    var t := [verb] + params;
    assert t[0] == verb && t[1..] == params;
  }

  /** An unregistered verb names no command, and no error is produced either. */
  lemma FindUnknown<C>(parsers: map<string, C>, ws: string, verb: string, params: seq<string>)
    requires AllWhitespace(ws) && IsWord(verb) && verb !in parsers
    requires forall k :: 0 <= k < |params| ==> IsWord(params[k])
    ensures FindCommandAction(parsers, CommandPrefix + ws + JoinWords([verb] + params)) == None
  {
    var line := JoinWords([verb] + params);
    var input := CommandPrefix + ws + line;
    StripPrefix(ws, line);
    SplitCommandLine(ws, verb, params);
  }

  /**
   * There is no quoting: a path written with a space in it, quoted or not,
   * reaches the command as two parameters.
   */
  lemma FindSplitsQuotedPath<C>(parsers: map<string, C>, verb: string, a: string, b: string)
    requires IsWord(verb) && verb in parsers && IsWord(a) && IsWord(b)
    ensures FindCommandAction(parsers, CommandPrefix + verb + " \"" + a + " " + b + "\"")
         == Some((parsers[verb], ["\"" + a, b + "\""]))
  {
    var qa, qb := "\"" + a, b + "\"";
    QuotedHalvesAreWords(a, b);
    FindKnown(parsers, "", verb, [qa, qb]);
    JoinThreeWords(verb, qa, qb);
    QuotedLine(verb, a, b);
  }

  lemma QuotedHalvesAreWords(a: string, b: string)
    requires IsWord(a) && IsWord(b)
    ensures IsWord("\"" + a) && IsWord(b + "\"")
  {
    var qa, qb := "\"" + a, b + "\"";
    assert forall i :: 1 <= i < |qa| ==> qa[i] == a[i - 1];
    assert forall i :: 0 <= i < |b| ==> qb[i] == b[i];
  }

  lemma JoinThreeWords(w0: string, w1: string, w2: string)
    ensures JoinWords([w0] + [w1, w2]) == w0 + " " + (w1 + " " + w2)
  {
    assert [w0] + [w1, w2] == [w0, w1, w2];
    assert [w0, w1, w2][1..] == [w1, w2];
    assert [w1, w2][1..] == [w2];
    assert JoinWords([w2]) == w2;
    assert JoinWords([w1, w2]) == w1 + " " + w2;
  }

  lemma QuotedLine(verb: string, a: string, b: string)
    ensures CommandPrefix + "" + (verb + " " + (("\"" + a) + " " + (b + "\"")))
         == CommandPrefix + verb + " \"" + a + " " + b + "\""
  {
  }
}
