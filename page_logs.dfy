/** The "Rendering logs" block appended to a failed assertion's report:
    one line per console message of the page, each indented, with the
    continuation lines of a multi-line message indented to match. */
module PageLogs {

  /** `message.replace(/\n/g, "\n" + pad)`: every line break of the message
      is followed by `pad`. The pad is taken literally; `replace` would
      expand `$` patterns in it, and the only indent used has none. */
  function IndentNewlines(message: string, pad: string): (r: string)
    ensures |r| >= |message|
  {
    if message == [] then []
    else (if message[0] == '\n' then "\n" + pad else [message[0]]) + IndentNewlines(message[1..], pad)
  }

  /** Re-indenting distributes over concatenation. */
  lemma {:induction false} IndentNewlinesAppend(a: string, b: string, pad: string)
    ensures IndentNewlines(a + b, pad) == IndentNewlines(a, pad) + IndentNewlines(b, pad)
  {
    if a == [] {
      assert a + b == b;
    } else {
      assert (a + b)[0] == a[0];
      assert (a + b)[1..] == a[1..] + b;
      IndentNewlinesAppend(a[1..], b, pad);
    }
  }

  /** A line break inside a message comes out followed by exactly `pad`. */
  lemma IndentNewlinesAtBreak(a: string, b: string, pad: string)
    ensures IndentNewlines(a + "\n" + b, pad) == IndentNewlines(a, pad) + "\n" + pad + IndentNewlines(b, pad)
  {
    assert a + "\n" + b == a + ("\n" + b);
    IndentNewlinesAppend(a, "\n" + b, pad);
    assert ("\n" + b)[1..] == b;
    assert IndentNewlines("\n" + b, pad) == "\n" + pad + IndentNewlines(b, pad);
  }

  /** A message without a line break is left as it is. */
  lemma {:induction false} IndentNewlinesNoBreak(message: string, pad: string)
    requires forall i :: 0 <= i < |message| ==> message[i] != '\n'
    ensures IndentNewlines(message, pad) == message
  {
    if message != [] {
      IndentNewlinesNoBreak(message[1..], pad);
    }
  }

  /** Removes the `pad` that follows each line break: the inverse of
      `IndentNewlines`. */
  function Unindent(s: string, pad: string): (r: string)
    decreases |s|
  {
    if s == [] then []
    else if s[0] == '\n' && |pad| < |s| && s[1..1 + |pad|] == pad then "\n" + Unindent(s[1 + |pad|..], pad)
    else [s[0]] + Unindent(s[1..], pad)
  }

  /** No information is lost by re-indenting: the original message is
      recovered from the report. */
  lemma {:induction false} UnindentIndentNewlines(message: string, pad: string)
    ensures Unindent(IndentNewlines(message, pad), pad) == message
  {
    if message != [] {
      var rest := IndentNewlines(message[1..], pad);
      UnindentIndentNewlines(message[1..], pad);
      if message[0] == '\n' {
        var s := "\n" + pad + rest;
        assert s[1..1 + |pad|] == pad;
        assert s[1 + |pad|..] == rest;
      } else {
        assert ([message[0]] + rest)[1..] == rest;
      }
    }
  }

  /** With a padding that does not end in a line break, a re-indented
      message never ends in one. */
  lemma {:induction false} IndentNewlinesLast(message: string, pad: string)
    requires pad != [] && pad[|pad| - 1] != '\n'
    ensures var r := IndentNewlines(message, pad); r == [] || r[|r| - 1] != '\n'
  {
    if message != [] {
      IndentNewlinesLast(message[1..], pad);
    }
  }

  function Header(indent: string): (h: string) {
    "\n\n" + indent + "Rendering logs:\n"
  }

  /** One message as it appears in the block. */
  function LogLine(message: string, indent: string): (line: string) {
    indent + "  " + IndentNewlines(message, indent + "  ")
  }

  /** The lines of the messages, each followed by a line break, as the loop
      accumulates them. */
  function TerminatedLines(logs: seq<string>, indent: string): (text: string) {
    if logs == [] then ""
    else TerminatedLines(logs[..|logs| - 1], indent) + LogLine(logs[|logs| - 1], indent) + "\n"
  }

  /** The lines of the messages, separated by line breaks. */
  function JoinedLines(logs: seq<string>, indent: string): (text: string)
    requires logs != []
  {
    if |logs| == 1 then LogLine(logs[0], indent)
    else JoinedLines(logs[..|logs| - 1], indent) + "\n" + LogLine(logs[|logs| - 1], indent)
  }

  /** The block as the report shows it: nothing at all without messages. */
  function PageLogsText(logs: seq<string>, indent: string): (r: string)
    ensures r == "" <==> logs == []
  {
    if logs == [] then "" else Header(indent) + JoinedLines(logs, indent)
  }

  lemma {:induction false} TerminatedIsJoined(logs: seq<string>, indent: string)
    requires logs != []
    ensures TerminatedLines(logs, indent) == JoinedLines(logs, indent) + "\n"
  {
    if |logs| > 1 {
      TerminatedIsJoined(logs[..|logs| - 1], indent);
    } else {
      assert logs[..0] == [];
    }
  }

  /** `getPageLogsString`: accumulate the header and every message line with
      its line break, then cut the final line break off. */
  method GetPageLogsString(pageLogs: seq<string>, indent: string) returns (result: string)
    ensures result == PageLogsText(pageLogs, indent)
  {
    result := "";
    if |pageLogs| > 0 {
      result := Header(indent);
      var i := 0;
      while i < |pageLogs|
        invariant 0 <= i <= |pageLogs|
        invariant result == Header(indent) + TerminatedLines(pageLogs[..i], indent)
      {
        assert pageLogs[..i + 1][..i] == pageLogs[..i];
        result := result + LogLine(pageLogs[i], indent) + "\n";
        i := i + 1;
      }
      assert pageLogs[..i] == pageLogs;
      TerminatedIsJoined(pageLogs, indent);
      result := result[..|result| - 1];
    }
  }

  /** One message more adds one line break and that message's line. */
  lemma PageLogsAppend(logs: seq<string>, message: string, indent: string)
    requires logs != []
    ensures PageLogsText(logs + [message], indent) == PageLogsText(logs, indent) + "\n" + LogLine(message, indent)
  {
    assert (logs + [message])[..|logs|] == logs;
  }

  /** A single message gives the header and that message's line. */
  lemma PageLogsSingle(message: string, indent: string)
    ensures PageLogsText([message], indent) == "\n\n" + indent + "Rendering logs:\n" + indent + "  " + IndentNewlines(message, indent + "  ")
  {
  }

  /** The block never ends in a line break. */
  lemma PageLogsNoTrailingNewline(logs: seq<string>, indent: string)
    ensures var s := PageLogsText(logs, indent); s == [] || s[|s| - 1] != '\n'
  {
    if logs != [] {
      var pad := indent + "  ";
      IndentNewlinesLast(logs[|logs| - 1], pad);
      var line := LogLine(logs[|logs| - 1], indent);
      assert line[|line| - 1] != '\n';
    }
  }
}
