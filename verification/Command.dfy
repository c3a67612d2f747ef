/**
 The command parser of the resource builder. A command line becomes an argument vector in one of
 three ways: an explicit shell call is taken apart, a line with shell operators is handed to
 /bin/sh, and any other line goes through a tokenizer that respects quotes.
 */
module Command {
  import opened Text

  const SHELLS := ["sh", "/bin/sh", "bash"]
  const SHELL_FLAG := " -c "

  predicate IsQuote(c: char) {
    c == '"' || c == '\''
  }

  predicate IsShellCall(cmd: string) {
    exists i :: 0 <= i < |SHELLS| && SHELLS[i] + SHELL_FLAG <= cmd
  }

  predicate HasShellOperator(cmd: string) {
    Contains(cmd, "&&") || Contains(cmd, "||") || Contains(cmd, "|") || Contains(cmd, ">") || Contains(cmd, "<")
  }

  /** The loop state of the tokenizer. */
  datatype Scan = Scan(result: seq<string>, current: string, inQuotes: bool, quoteChar: char)

  const START := Scan([], "", false, '\0')

  function Step(s: Scan, r: char): Scan {
    if IsQuote(r) then
      if s.inQuotes && r == s.quoteChar then s.(inQuotes := false)
      else if !s.inQuotes then s.(inQuotes := true, quoteChar := r)
      else s.(current := s.current + [r])
    else if r == ' ' && !s.inQuotes then
      if s.current != "" then s.(result := s.result + [s.current], current := "") else s
    else
      s.(current := s.current + [r])
  }

  function ScanAll(s: Scan, cmd: string): Scan
    decreases |cmd|
  {
    if cmd == [] then s else ScanAll(Step(s, cmd[0]), cmd[1..])
  }

  function Finish(s: Scan): seq<string> {
    if s.current != "" then s.result + [s.current] else s.result
  }

  function Tokens(cmd: string): (tokens: seq<string>)
    ensures forall i :: 0 <= i < |tokens| ==>
      tokens[i] != "" ==> !IsQuote(tokens[i][0]) && !IsQuote(tokens[i][|tokens[i]| - 1])
  {
    TrimAll(Finish(ScanAll(START, cmd)))
  }

  function TrimAll(raw: seq<string>): seq<string> {
    seq(|raw|, i requires 0 <= i < |raw| => Trim(raw[i], IsQuote))
  }

  predicate IsQuoted(s: string) {
    s != "" && IsQuote(s[0]) && s[|s| - 1] == s[0]
  }

  /** The argument of a shell call, after the first " -c ". */
  function ShellArgument(cmd: string): string
    requires Contains(cmd, SHELL_FLAG)
  {
    TrimSpace(cmd[Index(cmd, SHELL_FLAG).value + |SHELL_FLAG|..])
  }

  /** parseCommand; None stands for the run-time panic of slicing a lone quote as [1:0]. */
  function ParseCommand(cmd: string): Option<seq<string>> {
    if cmd == "" then Some([])
    else if IsShellCall(cmd) && Contains(cmd, SHELL_FLAG) then
      var argument := ShellArgument(cmd);
      if !IsQuoted(argument) then Some([TrimSpace(cmd[..Index(cmd, SHELL_FLAG).value]), "-c", argument])
      else if |argument| == 1 then None
      else Some([TrimSpace(cmd[..Index(cmd, SHELL_FLAG).value]), "-c", argument[1..|argument| - 1]])
    else if HasShellOperator(cmd) then Some(["/bin/sh", "-c", cmd])
    else Some(Tokens(cmd))
  }

  method Parse(cmd: string) returns (parsed: Option<seq<string>>)
    ensures parsed == ParseCommand(cmd)
  {
    hide Index, TrimSpace, Tokens, HasShellOperator;
    if cmd == "" {
      return Some([]);
    }
    var isAlreadyShellCommand := false;
    var p := 0;
    while p < |SHELLS| && !isAlreadyShellCommand
      invariant 0 <= p <= |SHELLS|
      invariant isAlreadyShellCommand ==> IsShellCall(cmd)
      invariant !isAlreadyShellCommand ==> forall i :: 0 <= i < p ==> !(SHELLS[i] + SHELL_FLAG <= cmd)
    {
      if SHELLS[p] + SHELL_FLAG <= cmd {
        isAlreadyShellCommand := true;
      }
      p := p + 1;
    }
    assert isAlreadyShellCommand <==> IsShellCall(cmd);
    if isAlreadyShellCommand {
      var at := Index(cmd, SHELL_FLAG);
      if at.Some? {
        var shellCmd := cmd[..at.value];
        var shellArg := TrimSpace(cmd[at.value + |SHELL_FLAG|..]);
        if IsQuoted(shellArg) {
          if |shellArg| == 1 {
            return None;
          }
          shellArg := shellArg[1..|shellArg| - 1];
        }
        return Some([TrimSpace(shellCmd), "-c", shellArg]);
      }
    }
    if HasShellOperator(cmd) {
      return Some(["/bin/sh", "-c", cmd]);
    }
    var tokens := Tokenize(cmd);
    return Some(tokens);
  }

  method Tokenize(cmd: string) returns (result: seq<string>)
    ensures result == Tokens(cmd)
  {
    result := [];
    var current, inQuotes, quoteChar := "", false, '\0';
    for i := 0 to |cmd|
      invariant ScanAll(Scan(result, current, inQuotes, quoteChar), cmd[i..]) == ScanAll(START, cmd)
    {
      var r := cmd[i];
      assert cmd[i..][0] == r && cmd[i..][1..] == cmd[i + 1..];
      if IsQuote(r) {
        if inQuotes && r == quoteChar {
          inQuotes := false;
        } else if !inQuotes {
          inQuotes, quoteChar := true, r;
        } else {
          current := current + [r];
        }
      } else if r == ' ' && !inQuotes {
        if current != "" {
          result, current := result + [current], "";
        }
      } else {
        current := current + [r];
      }
    }
    if current != "" {
      result := result + [current];
    }
    ghost var raw := result;
    assert raw == Finish(ScanAll(START, cmd));
    for i := 0 to |result|
      invariant |result| == |raw|
      invariant forall j :: 0 <= j < |raw| ==> result[j] == if j < i then Trim(raw[j], IsQuote) else raw[j]
    {
      result := result[i := Trim(result[i], IsQuote)];
    }
  }
}
