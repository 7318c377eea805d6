/**
 * The output file of the two diagnostic scripts: `open(output_file, 'w')` empties
 * it once at start, and every `log(message)` appends one line (and prints the same
 * line to standard output, which the model does not keep separately).
 */
module ScriptLog {

  class LogFile {
    /** The lines written so far, oldest first. */
    var lines: seq<string>

    /** Opening the output file for writing empties it. */
    constructor Truncate()
      ensures lines == []
    {
      lines := [];
    }

    /** Appends exactly one line. */
    method Log(message: string)
      modifies this
      ensures lines == old(lines) + [message]
    {
      lines := lines + [message];
    }

    /** Logs each of `messages` in order, one `Log` call each. */
    method LogAll(messages: seq<string>)
      modifies this
      ensures lines == old(lines) + messages
    {
      for k := 0 to |messages|
        invariant lines == old(lines) + messages[..k]
      {
        assert messages[..k + 1] == messages[..k] + [messages[k]];
        Log(messages[k]);
      }
      assert messages[..|messages|] == messages;
    }
  }
}
