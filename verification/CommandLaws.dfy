/** What the command parser promises: round trips, conservation of characters, and where it panics. */
module CommandLaws {
  import opened Text
  import opened Command

  // ----- Printing an argument vector and reading it back -----

  predicate IsOperator(c: char) {
    c == '|' || c == '<' || c == '>'
  }

  /** An argument that survives being put in double quotes. */
  predicate PlainArgument(a: string) {
    && a != ""
    && (forall i :: 0 <= i < |a| ==> a[i] != '"' && !IsOperator(a[i]))
    && !Contains(a, "&&")
    && a[0] != '\'' && a[|a| - 1] != '\''
  }

  function Quoted(a: string): string {
    "\"" + a + "\""
  }

  function QuotedLine(args: seq<string>): string {
    if args == [] then "" else if |args| == 1 then Quoted(args[0]) else Quoted(args[0]) + (" " + QuotedLine(args[1..]))
  }

  ghost predicate NoOperator(s: string) {
    && (forall i :: 0 <= i < |s| ==> !IsOperator(s[i]))
    && (forall i :: 0 < i < |s| ==> !(s[i - 1] == '&' && s[i] == '&'))
  }

  lemma ContainsAt(s: string, sub: string)
    requires sub != "" && Contains(s, sub)
    ensures exists i :: 0 <= i <= |s| - |sub| && s[i] == sub[0] && s[i + |sub| - 1] == sub[|sub| - 1]
  {
    var i := Index(s, sub).value;
    assert s[i..][0] == s[i] && s[i..][|sub| - 1] == s[i + |sub| - 1];
  }

  lemma NoOperatorIsPlain(s: string)
    requires NoOperator(s)
    ensures !HasShellOperator(s)
  {
    hide Contains;
    if sub :| sub in ["&&", "||", "|", ">", "<"] && Contains(s, sub) {
      ContainsAt(s, sub);
      assert false;
    }
  }

  lemma NoOperatorQuoted(a: string)
    requires PlainArgument(a)
    ensures NoOperator(Quoted(a))
  {
    forall i | 0 < i < |a|
      ensures !(a[i - 1] == '&' && a[i] == '&')
    {
      assert !("&&" <= a[i - 1..]);
      assert a[i - 1..][0] == a[i - 1] && a[i - 1..][1] == a[i];
    }
  }

  lemma {:induction false} QuotedLineIsPlain(args: seq<string>)
    requires forall a :: a in args ==> PlainArgument(a)
    ensures NoOperator(QuotedLine(args))
    ensures args != [] ==> QuotedLine(args) != "" && QuotedLine(args)[0] == '"'
  {
    if args != [] {
      NoOperatorQuoted(args[0]);
      QuotedLineIsPlain(args[1..]);
    }
  }

  lemma {:induction false} ScanInside(s: Scan, a: string, rest: string)
    requires s.inQuotes && s.quoteChar == '"' && '"' !in a
    ensures ScanAll(s, a + rest) == ScanAll(s.(current := s.current + a), rest)
    decreases |a|
  {
    if a == "" {
      assert a + rest == rest && s.current + a == s.current;
    } else {
      assert (a + rest)[1..] == a[1..] + rest;
      ScanInside(Step(s, a[0]), a[1..], rest);
      assert s.current + [a[0]] + a[1..] == s.current + a;
    }
  }

  lemma ScanQuoted(result: seq<string>, q: char, a: string, rest: string)
    requires '"' !in a
    ensures ScanAll(Scan(result, "", false, q), Quoted(a) + rest) == ScanAll(Scan(result, a, false, '"'), rest)
  {
    var inside := Scan(result, "", true, '"');
    assert (Quoted(a) + rest)[1..] == a + ("\"" + rest);
    ScanInside(inside, a, "\"" + rest);
    assert "" + a == a;
    assert ("\"" + rest)[1..] == rest;
  }

  lemma {:induction false} ScanLine(result: seq<string>, q: char, args: seq<string>)
    requires forall a :: a in args ==> PlainArgument(a)
    ensures Finish(ScanAll(Scan(result, "", false, q), QuotedLine(args))) == result + args
    decreases |args|
  {
    assert args != [] ==> args[0] in args && forall i :: 0 <= i < |args[0]| ==> args[0][i] != '"';
    if |args| == 1 {
      ScanQuoted(result, q, args[0], "");
      assert Quoted(args[0]) + "" == Quoted(args[0]);
      assert [args[0]] == args;
    } else if |args| > 1 {
      var rest := QuotedLine(args[1..]);
      ScanQuoted(result, q, args[0], " " + rest);
      assert (" " + rest)[1..] == rest;
      ScanLine(result + [args[0]], '"', args[1..]);
      assert result + [args[0]] + args[1..] == result + args;
    }
  }

  lemma TrimAllKeeps(args: seq<string>)
    requires forall a :: a in args ==> a != "" && !IsQuote(a[0]) && !IsQuote(a[|a| - 1])
    ensures TrimAll(args) == args
  {
    forall i | 0 <= i < |args|
      ensures Trim(args[i], IsQuote) == args[i]
    {
      assert args[i] in args;
      TrimKeeps(args[i], IsQuote);
    }
  }

  lemma QuotedLineIsNoShellCall(args: seq<string>)
    requires args != []
    ensures QuotedLine(args) != "" && !IsShellCall(QuotedLine(args))
  {
    var line := QuotedLine(args);
    assert line != "" && line[0] == '"';
    forall i | 0 <= i < |SHELLS|
      ensures !(SHELLS[i] + SHELL_FLAG <= line)
    {
      assert (SHELLS[i] + SHELL_FLAG)[0] == SHELLS[i][0] != '"';
    }
  }

  /** Quoting every argument, joining with spaces and parsing gives the arguments back. */
  lemma {:induction false} RoundTrip(args: seq<string>)
    requires forall a :: a in args ==> PlainArgument(a)
    ensures ParseCommand(QuotedLine(args)) == Some(args)
  {
    if args != [] {
      QuotedLineIsPlain(args);
      NoOperatorIsPlain(QuotedLine(args));
      ScanLine([], '\0', args);
      assert [] + args == args;
      TrimAllKeeps(args);
      QuotedLineIsNoShellCall(args);
    }
  }

  // ----- No character is lost or invented -----

  /** The characters of `s` that are neither blanks nor quotes. */
  function Letters(s: string): string {
    if s == "" then ""
    else Letters(s[..|s| - 1]) + (if s[|s| - 1] == ' ' || IsQuote(s[|s| - 1]) then "" else [s[|s| - 1]])
  }

  lemma {:induction false} LettersConcat(a: string, b: string)
    ensures Letters(a + b) == Letters(a) + Letters(b)
    decreases |b|
  {
    if b == "" {
      assert a + b == a;
    } else {
      assert (a + b)[..|a + b| - 1] == a + b[..|b| - 1];
      LettersConcat(a, b[..|b| - 1]);
    }
  }

  lemma {:induction false} LettersOfMarks(a: string)
    requires forall i :: 0 <= i < |a| ==> a[i] == ' ' || IsQuote(a[i])
    ensures Letters(a) == ""
  {
    if a != "" {
      LettersOfMarks(a[..|a| - 1]);
    }
  }

  lemma LettersOfFringe(head: string, middle: string, tail: string)
    requires forall i :: 0 <= i < |head| ==> IsQuote(head[i])
    requires forall i :: 0 <= i < |tail| ==> IsQuote(tail[i])
    ensures Letters(head + (middle + tail)) == Letters(middle)
  {
    LettersConcat(head, middle + tail);
    LettersConcat(middle, tail);
    LettersOfMarks(head);
    LettersOfMarks(tail);
  }

  lemma LettersOfTrim(a: string)
    ensures Letters(Trim(a, IsQuote)) == Letters(a)
  {
    hide Letters;
    var left := TrimLeft(a, IsQuote);
    var kept := TrimRight(left, IsQuote);
    var head, tail := a[..|a| - |left|], left[|kept|..];
    LettersOfFringe(head, kept, tail);
    hide TrimLeft, TrimRight;
    assert left == kept + tail && a == head + left;
  }

  lemma ConcatSnoc(parts: seq<string>, last: string)
    ensures Concat(parts + [last]) == Concat(parts) + last
  {
    assert (parts + [last])[..|parts|] == parts;
  }

  function ScannedText(s: Scan): string {
    Concat(s.result) + s.current
  }

  /** One character adds itself to the text, or nothing when it is a blank or a quote. */
  lemma StepAppends(s: Scan, r: char)
    ensures ScannedText(Step(s, r)) == ScannedText(s) || ScannedText(Step(s, r)) == ScannedText(s) + [r]
    ensures r != ' ' && !IsQuote(r) ==> ScannedText(Step(s, r)) == ScannedText(s) + [r]
  {
    ConcatSnoc(s.result, s.current);
    hide Concat;
    assert Concat(s.result) + (s.current + [r]) == ScannedText(s) + [r];
  }

  lemma StepConserves(s: Scan, r: char)
    ensures Letters(ScannedText(Step(s, r))) == Letters(ScannedText(s)) + Letters([r])
  {
    StepAppends(s, r);
    LettersConcat(ScannedText(s), [r]);
    assert Letters([r]) == if r == ' ' || IsQuote(r) then "" else [r];
    assert Letters(ScannedText(s)) + "" == Letters(ScannedText(s));
    hide Letters, ScannedText, Step;
  }

  lemma FinishedText(s: Scan)
    ensures Concat(Finish(s)) == ScannedText(s)
  {
    ConcatSnoc(s.result, s.current);
    assert Concat(s.result) + "" == Concat(s.result);
    hide Concat;
  }

  lemma {:induction false} ScanConserves(s: Scan, cmd: string)
    ensures Letters(Concat(Finish(ScanAll(s, cmd)))) == Letters(ScannedText(s)) + Letters(cmd)
    decreases |cmd|
  {
    hide ScannedText, Step, Finish, Concat;
    if cmd == "" {
      FinishedText(s);
      assert Letters(ScannedText(s)) + "" == Letters(ScannedText(s));
    } else {
      StepConserves(s, cmd[0]);
      ScanConserves(Step(s, cmd[0]), cmd[1..]);
      assert [cmd[0]] + cmd[1..] == cmd;
      LettersConcat([cmd[0]], cmd[1..]);
      hide Letters;
      assert (Letters(ScannedText(s)) + Letters([cmd[0]])) + Letters(cmd[1..]) == Letters(ScannedText(s))
          + Letters(cmd);
    }
  }

  lemma {:induction false} LettersOfTrimmed(raw: seq<string>, trimmed: seq<string>)
    requires |trimmed| == |raw| && forall i :: 0 <= i < |raw| ==> trimmed[i] == Trim(raw[i], IsQuote)
    ensures Letters(Concat(trimmed)) == Letters(Concat(raw))
  {
    if raw != [] {
      var n := |raw| - 1;
      LettersOfTrimmed(raw[..n], trimmed[..n]);
      LettersOfTrim(raw[n]);
      LettersConcat(Concat(raw[..n]), raw[n]);
      LettersConcat(Concat(trimmed[..n]), trimmed[n]);
    }
  }

  /** The tokens carry exactly the input's letters in order, whatever the quotes do. */
  lemma {:induction false} TokensConserve(cmd: string)
    ensures Letters(Concat(Tokens(cmd))) == Letters(cmd)
  {
    ScanConserves(START, cmd);
    LettersOfTrimmed(Finish(ScanAll(START, cmd)), Tokens(cmd));
  }

  // ----- Shell calls -----

  /** The command line that calls shell number `i` on `tail`. */
  function ShellCall(i: nat, tail: string): string
    requires i < |SHELLS|
  {
    SHELLS[i] + SHELL_FLAG + tail
  }

  lemma {:induction false} ShellsHaveNoBlank(i: nat)
    requires i < |SHELLS|
    ensures forall j :: 0 <= j < |SHELLS[i]| ==> SHELLS[i][j] != ' '
    ensures TrimSpace(SHELLS[i]) == SHELLS[i]
  {
    hide Trim;
    TrimKeeps(SHELLS[i], IsSpace);
  }

  lemma FirstFlag(head: string, tail: string)
    requires forall j :: 0 <= j < |head| ==> head[j] != ' '
    ensures Index(head + SHELL_FLAG + tail, SHELL_FLAG) == Some(|head|)
  {
    var cmd := head + SHELL_FLAG + tail;
    assert cmd[|head|..] == SHELL_FLAG + tail;
    forall j | 0 <= j < |head|
      ensures !(SHELL_FLAG <= cmd[j..])
    {
      assert cmd[j..][0] == head[j] != SHELL_FLAG[0];
    }
  }

  lemma ShellCallSplits(i: nat, tail: string)
    requires i < |SHELLS|
    ensures var cmd := ShellCall(i, tail);
      && cmd != "" && IsShellCall(cmd)
      && Index(cmd, SHELL_FLAG) == Some(|SHELLS[i]|)
      && cmd[..|SHELLS[i]|] == SHELLS[i] && cmd[|SHELLS[i]| + |SHELL_FLAG|..] == tail
  {
    ShellsHaveNoBlank(i);
    FirstFlag(SHELLS[i], tail);
    assert SHELLS[i] + SHELL_FLAG <= ShellCall(i, tail);
  }

  /** A script in quotes after a shell and -c is taken out verbatim, operators and all. */
  lemma {:induction false} ShellRoundTrip(i: nat, script: string, quote: char)
    requires i < |SHELLS| && IsQuote(quote)
    ensures ParseCommand(ShellCall(i, [quote] + script + [quote])) == Some([SHELLS[i], "-c", script])
  {
    hide Trim, Index, Tokens, HasShellOperator;
    var argument := [quote] + script + [quote];
    ShellCallSplits(i, argument);
    ShellsHaveNoBlank(i);
    TrimKeeps(argument, IsSpace);
    assert argument[1..|argument| - 1] == script;
  }

  lemma ShellCallForm(cmd: string) returns (i: nat, tail: string)
    requires IsShellCall(cmd)
    ensures i < |SHELLS| && cmd == ShellCall(i, tail)
  {
    i :| 0 <= i < |SHELLS| && SHELLS[i] + SHELL_FLAG <= cmd;
    tail := cmd[|SHELLS[i] + SHELL_FLAG|..];
  }

  ghost predicate IsLoneQuote(s: string) {
    |s| == 1 && IsQuote(s[0])
  }

  lemma {:induction false} ShellCallPanics(i: nat, tail: string)
    requires i < |SHELLS|
    ensures ParseCommand(ShellCall(i, tail)).None? <==> IsLoneQuote(TrimSpace(tail))
  {
    hide TrimSpace, Index;
    ShellCallSplits(i, tail);
    assert ShellArgument(ShellCall(i, tail)) == TrimSpace(tail);
  }

  /** The parser panics exactly on a shell call whose argument is one lone quote. */
  lemma {:induction false} PanicsExactly(cmd: string)
    ensures ParseCommand(cmd).None? <==>
      exists i: nat, tail :: i < |SHELLS| && cmd == ShellCall(i, tail) && IsLoneQuote(TrimSpace(tail))
  {
    if IsShellCall(cmd) {
      var i, tail := ShellCallForm(cmd);
      ShellCallPanics(i, tail);
    }
    if i: nat, tail :| i < |SHELLS| && cmd == ShellCall(i, tail) && IsLoneQuote(TrimSpace(tail)) {
      ShellCallPanics(i, tail);
    }
  }

  /** The smallest panicking command. */
  lemma {:induction false} PanicWitness()
    ensures ParseCommand("sh -c '").None?
  {
    hide ParseCommand, IsSpace, Trim;
    LoneQuoteIsNotTrimmed();
    assert "sh -c '" == ShellCall(0, "'");
    ShellCallPanics(0, "'");
  }

  lemma LoneQuoteIsNotTrimmed()
    ensures TrimSpace("'") == "'"
  {
    TrimKeeps("'", IsSpace);
  }

  // ----- Which way a command goes -----

  /** The line begins with a shell and -c. */
  predicate CallsShell(cmd: string) {
    "sh -c " <= cmd || "/bin/sh -c " <= cmd || "bash -c " <= cmd
  }

  /** A pipe, a redirection, or two ampersands in a row. */
  predicate NeedsShell(cmd: string) {
    exists i :: 0 <= i < |cmd| && OperatesAt(cmd, i)
  }

  predicate OperatesAt(cmd: string, i: nat)
    requires i < |cmd|
  {
    cmd[i] == '|' || cmd[i] == '<' || cmd[i] == '>' || (i > 0 && cmd[i - 1] == '&' && cmd[i] == '&')
  }

  lemma NeedsShellIsOperator(cmd: string)
    ensures NeedsShell(cmd) <==> HasShellOperator(cmd)
  {
    if NeedsShell(cmd) {
      var i :| 0 <= i < |cmd| && OperatesAt(cmd, i);
      hide Index;
      assert [cmd[i]] <= cmd[i..];
      if i > 0 && cmd[i - 1] == '&' && cmd[i] == '&' {
        assert cmd[i - 1..][0] == cmd[i - 1] && cmd[i - 1..][1] == cmd[i];
        assert "&&" <= cmd[i - 1..];
      }
    } else {
      forall i | 0 <= i < |cmd|
        ensures !IsOperator(cmd[i]) && (i > 0 ==> !(cmd[i - 1] == '&' && cmd[i] == '&'))
      {
        assert !OperatesAt(cmd, i);
      }
      NoOperatorIsPlain(cmd);
    }
  }

  lemma CallsShellIsShellCall(cmd: string)
    ensures CallsShell(cmd) <==> IsShellCall(cmd)
  {
    assert SHELLS[0] + SHELL_FLAG == "sh -c " && SHELLS[1] + SHELL_FLAG == "/bin/sh -c "
        && SHELLS[2] + SHELL_FLAG == "bash -c ";
  }

  /** A line that is no shell call goes to /bin/sh as it is if it needs a shell, and is tokenized otherwise. */
  lemma ParsesByForm(cmd: string)
    requires cmd != "" && !CallsShell(cmd)
    ensures ParseCommand(cmd) == Some(if NeedsShell(cmd) then ["/bin/sh", "-c", cmd] else Tokens(cmd))
  {
    NeedsShellIsOperator(cmd);
    CallsShellIsShellCall(cmd);
    hide NeedsShell, HasShellOperator, CallsShell, IsShellCall, Tokens, ShellArgument;
  }

  /** The script without the pair of quotes around it, if there is one. */
  function Unquoted(script: string): string {
    if |script| >= 2 && IsQuote(script[0]) && script[|script| - 1] == script[0] then script[1..|script| - 1] else script
  }

  /** A call of one of the three shells is taken apart, unless its script is a lone quote. */
  lemma {:induction false} ShellCallIsTakenApart(shell: string, tail: string)
    requires shell in ["sh", "/bin/sh", "bash"]
    ensures var script := TrimSpace(tail);
      ParseCommand(shell + " -c " + tail) ==
        if IsLoneQuote(script) then None else Some([shell, "-c", Unquoted(script)])
  {
    hide Trim, Index, Tokens, HasShellOperator;
    var i: nat := if shell == "sh" then 0 else if shell == "/bin/sh" then 1 else 2;
    assert SHELLS[i] == shell && shell + " -c " + tail == ShellCall(i, tail);
    ShellCallSplits(i, tail);
    ShellsHaveNoBlank(i);
  }
}
