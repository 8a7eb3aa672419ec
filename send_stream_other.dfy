/**
 * `commands/send_stream/other.rs`: on platforms without video capture the
 * stream commands exist by name, and parsing their parameters always fails
 * with a message naming the command.
 */
module StreamOther {
  import opened Wrappers

  /** `SendStreamCommand::name` */
  const SendStreamName: string := "stream"
  /** `StopStreamCommand::name` */
  const StopStreamName: string := "stopstream"

  const NotSupported: string := " command is not supported on this platform."

  /**
   * `parse_params` of either command, named `name`: an error whatever the
   * parameter, so no action is ever made. (`()` stands for the action that
   * is never built.)
   */
  function ParseParams(name: string, param: Option<string>): (r: Result<(), string>)
    ensures r.Err?
    ensures |r.error| == |name| + |NotSupported|
    ensures r.error[..|name|] == name && r.error[|name|..] == NotSupported
  {
    Err(name + NotSupported)
  }

  /** The two commands fail with different messages, and neither depends on the parameter. */
  lemma UnsupportedMessages(p: Option<string>, q: Option<string>)
    ensures ParseParams(SendStreamName, p) == ParseParams(SendStreamName, q)
    ensures ParseParams(StopStreamName, p) == ParseParams(StopStreamName, q)
    ensures ParseParams(SendStreamName, p) != ParseParams(StopStreamName, q)
  {
    var a, b := ParseParams(SendStreamName, p).error, ParseParams(StopStreamName, q).error;
    assert a[1] == 't' && b[1] == 't' && a[2] == 'r' && b[2] == 'o';
  }
}
