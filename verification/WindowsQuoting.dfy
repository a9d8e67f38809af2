/**
  Building a Windows command line from an argument list, and the rules by which
  CommandLineToArgvW takes it apart again.
 */
module WindowsQuoting {

  import opened Text

  predicate NeedsQuotes(arg: string) {
    exists i | 0 <= i < |arg| :: IsWhitespace(arg[i]) || arg[i] == '"'
  }

  function Backslashes(n: nat): (s: string)
    ensures |s| == n && forall i | 0 <= i < n :: s[i] == '\\'
  {
    seq(n, i => '\\')
  }

  /**
    The text between the quotes, from the point where `b` backslashes were just
    written: they are written again wherever a quote follows them.
   */
  function Escaped(arg: string, b: nat): string
    decreases |arg|
  {
    if arg == "" then Backslashes(b)
    else if arg[0] == '\\' then "\\" + Escaped(arg[1..], b + 1)
    else if arg[0] == '"' then Backslashes(b + 1) + "\"" + Escaped(arg[1..], 0)
    else [arg[0]] + Escaped(arg[1..], 0)
  }

  function Quoted(arg: string): string {
    if arg == "" then "\"\"" else if !NeedsQuotes(arg) then arg else "\"" + Escaped(arg, 0) + "\""
  }

  method QuoteWindowsArgument(arg: string) returns (r: string)
    ensures r == Quoted(arg)
  {
    if arg == "" {
      return "\"\"";
    }
    if !NeedsQuotes(arg) {
      return arg;
    }
    var quoted, backslashes := "\"", 0;
    for i := 0 to |arg|
      invariant "\"" + Escaped(arg, 0) == quoted + Escaped(arg[i..], backslashes)
    {
      assert arg[i..][1..] == arg[i + 1..];
      if arg[i] == '\\' {
        backslashes := backslashes + 1;
        quoted := quoted + "\\";
      } else if arg[i] == '"' {
        quoted := quoted + Backslashes(backslashes + 1) + "\"";
        backslashes := 0;
      } else {
        backslashes := 0;
        quoted := quoted + [arg[i]];
      }
    }
    r := quoted + Backslashes(backslashes) + "\"";
  }

  /** Arguments joined by single blanks, each preceded by one. */
  function Joined(args: seq<string>): string {
    if args == [] then "" else " " + Quoted(args[0]) + Joined(args[1..])
  }

  function CommandLine(command: string, args: seq<string>): string {
    Quoted(command) + Joined(args)
  }

  lemma {:induction false} JoinedMore(args: seq<string>, arg: string)
    ensures Joined(args + [arg]) == Joined(args) + " " + Quoted(arg)
  {
    if args != [] {
      assert (args + [arg])[1..] == args[1..] + [arg];
      JoinedMore(args[1..], arg);
    } else {
      assert args + [arg] == [arg];
    }
  }

  method BuildCommandLine(command: string, args: seq<string>) returns (line: string)
    ensures line == CommandLine(command, args)
  {
    line := QuoteWindowsArgument(command);
    for i := 0 to |args|
      invariant line == CommandLine(command, args[..i])
    {
      var part := QuoteWindowsArgument(args[i]);
      assert args[..i + 1] == args[..i] + [args[i]];
      JoinedMore(args[..i], args[i]);
      line := line + " " + part;
    }
    assert args[..|args|] == args;
  }

  // ----- Taking a command line apart -----

  predicate IsBlank(c: char) {
    c == ' ' || c == '\t'
  }

  /**
    One argument, with `acc` read so far and `b` backslashes not yet decided: before a
    quote, pairs of them stand for one each and an odd one makes the quote literal;
    elsewhere they stand for themselves. Other quotes switch quoting on and off.
    Implementations differ on a quote directly after a closing quote: with `pairs` it
    stands for a literal quote and quoting goes on.
   */
  function ParseArg(s: string, b: nat, quoted: bool, pairs: bool, acc: string): (r: (string, string))
    ensures |r.1| <= |s| && (s != "" && !IsBlank(s[0]) ==> |r.1| < |s|)
    decreases |s|
  {
    if s == "" || (!quoted && IsBlank(s[0])) then (acc + Backslashes(b), s)
    else if s[0] == '\\' then ParseArg(s[1..], b + 1, quoted, pairs, acc)
    else if s[0] != '"' then ParseArg(s[1..], 0, quoted, pairs, acc + Backslashes(b) + [s[0]])
    else if b % 2 == 1 then ParseArg(s[1..], 0, quoted, pairs, acc + Backslashes(b / 2) + "\"")
    else if pairs && quoted && 1 < |s| && s[1] == '"' then
      ParseArg(s[2..], 0, quoted, pairs, acc + Backslashes(b / 2) + "\"")
    else ParseArg(s[1..], 0, !quoted, pairs, acc + Backslashes(b / 2))
  }

  function ParseArgs(s: string, pairs: bool): seq<string>
    decreases |s|
  {
    if s == "" then []
    else if IsBlank(s[0]) then ParseArgs(s[1..], pairs)
    else
      var (a, rest) := ParseArg(s, 0, false, pairs, "");
      [a] + ParseArgs(rest, pairs)
  }

  predicate Ends(tail: string) {
    tail == "" || IsBlank(tail[0])
  }

  lemma {:induction false} SkipsBackslashes(k: nat, s: string, b: nat, quoted: bool, pairs: bool, acc: string)
    ensures ParseArg(Backslashes(k) + s, b, quoted, pairs, acc) == ParseArg(s, b + k, quoted, pairs, acc)
    decreases k
  {
    if k == 0 {
      assert Backslashes(k) + s == s;
    } else {
      assert (Backslashes(k) + s)[1..] == Backslashes(k - 1) + s;
      SkipsBackslashes(k - 1, s, b + 1, quoted, pairs, acc);
    }
  }

  lemma MoreBackslashes(b: nat)
    ensures Backslashes(b + 1) == Backslashes(b) + "\\"
  {
  }

  lemma Regroup(acc: string, b: nat, c: char, rest: string)
    ensures acc + Backslashes(b) + [c] + Backslashes(0) + rest == acc + Backslashes(b) + ([c] + rest)
    ensures acc + Backslashes(b + 1) + rest == acc + Backslashes(b) + ("\\" + rest)
  {
    MoreBackslashes(b);
  }

  /** Reading escaped text up to its closing quote gives the argument back. */
  lemma {:induction false} ReadsEscaped(arg: string, b: nat, tail: string, pairs: bool, acc: string)
    requires Ends(tail)
    ensures ParseArg(Escaped(arg, b) + "\"" + tail, b, true, pairs, acc) == (acc + Backslashes(b) + arg, tail)
    decreases |arg|
  {
    var s := Escaped(arg, b) + "\"" + tail;
    if arg == "" {
      ClosesQuote(b, tail, pairs, acc);
    } else {
      var c, rest := arg[0], arg[1..];
      assert arg == [c] + rest;
      Regroup(acc, b, c, rest);
      if c == '\\' {
        ReadsEscaped(rest, b + 1, tail, pairs, acc);
        assert s[1..] == Escaped(rest, b + 1) + "\"" + tail;
      } else {
        var more := Escaped(rest, 0) + "\"" + tail;
        ReadsEscaped(rest, 0, tail, pairs, acc + Backslashes(b) + [c]);
        if c == '"' {
          assert s == Backslashes(b + 1) + "\"" + more;
          ReadsLiteralQuote(b, more, pairs, acc);
        } else {
          assert s[1..] == more;
        }
      }
    }
  }

  lemma ReadsLiteralQuote(b: nat, more: string, pairs: bool, acc: string)
    ensures ParseArg(Backslashes(b + 1) + "\"" + more, b, true, pairs, acc)
            == ParseArg(more, 0, true, pairs, acc + Backslashes(b) + "\"")
  {
    assert Backslashes(b + 1) + "\"" + more == Backslashes(b + 1) + ("\"" + more);
    SkipsBackslashes(b + 1, "\"" + more, b, true, pairs, acc);
    assert ("\"" + more)[1..] == more && (2 * b + 1) / 2 == b;
  }

  lemma ClosesQuote(b: nat, tail: string, pairs: bool, acc: string)
    requires Ends(tail)
    ensures ParseArg(Backslashes(b) + "\"" + tail, b, true, pairs, acc) == (acc + Backslashes(b) + "", tail)
  {
    assert Backslashes(b) + "\"" + tail == Backslashes(b) + ("\"" + tail);
    SkipsBackslashes(b, "\"" + tail, b, true, pairs, acc);
    assert ("\"" + tail)[1..] == tail && (2 * b) / 2 == b;
    assert ParseArg(tail, 0, false, pairs, acc + Backslashes(b)) == (acc + Backslashes(b) + Backslashes(0), tail);
    assert Backslashes(0) == "";
  }

  /** Text without quotes and blanks is its own argument. */
  lemma {:induction false} ReadsBare(arg: string, b: nat, tail: string, pairs: bool, acc: string)
    requires Ends(tail) && forall i | 0 <= i < |arg| :: arg[i] != '"' && !IsBlank(arg[i])
    ensures ParseArg(arg + tail, b, false, pairs, acc) == (acc + Backslashes(b) + arg, tail)
    decreases |arg|
  {
    if arg == "" {
      assert arg + tail == tail && acc + Backslashes(b) + "" == acc + Backslashes(b);
    } else {
      var c, rest := arg[0], arg[1..];
      assert (arg + tail)[1..] == rest + tail && arg == [c] + rest;
      Regroup(acc, b, c, rest);
      if c == '\\' {
        ReadsBare(rest, b + 1, tail, pairs, acc);
      } else {
        ReadsBare(rest, 0, tail, pairs, acc + Backslashes(b) + [c]);
      }
    }
  }

  lemma ReadsQuoted(arg: string, tail: string, pairs: bool)
    requires Ends(tail)
    ensures ParseArg(Quoted(arg) + tail, 0, false, pairs, "") == (arg, tail)
    ensures Quoted(arg) != "" && !IsBlank(Quoted(arg)[0])
  {
    assert "" + Backslashes(0) == "" && "" + Backslashes(0) + arg == arg;
    if arg != "" && !NeedsQuotes(arg) {
      assert forall i | 0 <= i < |arg| :: arg[i] != '"' && !IsWhitespace(arg[i]);
      ReadsBare(arg, 0, tail, pairs, "");
    } else {
      var s := Quoted(arg) + tail;
      assert Quoted(arg) == "\"" + Escaped(arg, 0) + "\"" by {
        assert arg == "" ==> Escaped(arg, 0) == "";
      }
      assert s[1..] == Escaped(arg, 0) + "\"" + tail;
      ReadsEscaped(arg, 0, tail, pairs, "");
      assert ParseArg(s, 0, false, pairs, "") == ParseArg(s[1..], 0, true, pairs, "" + Backslashes(0));
    }
  }

  /** Whatever the arguments hold, the command line gives them back. */
  lemma {:induction false} ArgumentsRoundTrip(args: seq<string>, pairs: bool)
    ensures ParseArgs(Joined(args), pairs) == args && Ends(Joined(args))
  {
    if args != [] {
      var rest := Joined(args[1..]);
      ArgumentsRoundTrip(args[1..], pairs);
      ReadsQuoted(args[0], rest, pairs);
      assert Joined(args)[1..] == Quoted(args[0]) + rest;
      assert args == [args[0]] + args[1..];
    }
  }

  // ----- The program name -----

  predicate IsStop(c: char, atQuote: bool) {
    if atQuote then c == '"' else IsBlank(c)
  }

  function UpTo(s: string, atQuote: bool): (n: nat)
    ensures n <= |s| && (forall i | 0 <= i < n :: !IsStop(s[i], atQuote)) && (n < |s| ==> IsStop(s[n], atQuote))
  {
    if s == "" || IsStop(s[0], atQuote) then 0 else 1 + UpTo(s[1..], atQuote)
  }

  /** The program name has rules of its own: no escapes, up to the next quote or blank. */
  function ParseProgram(s: string): (string, string) {
    if s != "" && s[0] == '"' then
      var n := UpTo(s[1..], true);
      (s[1..][..n], if n < |s| - 1 then s[1..][n + 1..] else "")
    else
      var n := UpTo(s, false);
      (s[..n], s[n..])
  }

  /** No quote in the program name and, where it is quoted, no backslash at its end. */
  predicate ProgramOk(command: string) {
    && (forall i | 0 <= i < |command| :: command[i] != '"')
    && (NeedsQuotes(command) ==> command[|command| - 1] != '\\')
  }

  function Trailing(arg: string, b: nat): (n: nat)
    ensures arg != "" ==> (n == 0 <==> arg[|arg| - 1] != '\\')
    decreases |arg|
  {
    if arg == "" then b else Trailing(arg[1..], if arg[0] == '\\' then b + 1 else 0)
  }

  lemma {:induction false} EscapedWithoutQuotes(arg: string, b: nat)
    requires forall i | 0 <= i < |arg| :: arg[i] != '"'
    ensures Escaped(arg, b) == arg + Backslashes(Trailing(arg, b))
    decreases |arg|
  {
    if arg != "" {
      var b' := if arg[0] == '\\' then b + 1 else 0;
      EscapedWithoutQuotes(arg[1..], b');
      assert arg == [arg[0]] + arg[1..];
    }
  }

  lemma {:induction false} StopsAt(s: string, atQuote: bool, n: nat)
    requires n <= |s| && (forall i | 0 <= i < n :: !IsStop(s[i], atQuote)) && (n < |s| ==> IsStop(s[n], atQuote))
    ensures UpTo(s, atQuote) == n
  {
    if n > 0 {
      StopsAt(s[1..], atQuote, n - 1);
    }
  }

  lemma StopsAtQuote(e: string, tail: string)
    requires forall i | 0 <= i < |e| :: e[i] != '"'
    ensures ParseProgram("\"" + e + "\"" + tail) == (e, tail)
  {
    var line, rest := "\"" + e + "\"" + tail, e + "\"" + tail;
    assert line[1..] == rest;
    StopsAt(rest, true, |e|);
    assert rest[..|e|] == e && rest[|e| + 1..] == tail;
  }

  lemma QuotedProgram(command: string, tail: string)
    requires command == "" || NeedsQuotes(command)
    requires forall i | 0 <= i < |command| :: command[i] != '"'
    ensures ParseProgram(Quoted(command) + tail) == (command + Backslashes(Trailing(command, 0)), tail)
  {
    var e := Escaped(command, 0);
    EscapedWithoutQuotes(command, 0);
    assert forall i | 0 <= i < |e| :: e[i] != '"';
    StopsAtQuote(e, tail);
    assert Quoted(command) + tail == "\"" + e + "\"" + tail;
  }

  lemma PlainProgram(command: string, args: seq<string>)
    requires command != "" && !NeedsQuotes(command)
    ensures ParseProgram(CommandLine(command, args)) == (command, Joined(args)) && ProgramOk(command)
  {
    var line, tail := CommandLine(command, args), Joined(args);
    assert forall i | 0 <= i < |command| :: command[i] != '"' && !IsWhitespace(command[i]);
    StopsAt(line, false, |command|);
    assert line[..|command|] == command && line[|command|..] == tail;
  }

  lemma QuoteIsLost(command: string, i: nat, tail: string)
    requires i < |command| && command[i] == '"'
    ensures ParseProgram(Quoted(command) + tail).0 != command
  {
    var p := ParseProgram(Quoted(command) + tail).0;
    assert (Quoted(command) + tail)[0] == '"';
    assert forall k | 0 <= k < |p| :: p[k] != '"';
  }

  /** Exactly which program names survive next to the arguments. */
  lemma {:induction false} ProgramRoundTripIff(command: string, args: seq<string>)
    ensures ParseProgram(CommandLine(command, args)) == (command, Joined(args)) <==> ProgramOk(command)
  {
    hide Quoted, Joined, ParseProgram;
    var tail := Joined(args);
    if command != "" && !NeedsQuotes(command) {
      PlainProgram(command, args);
    } else if i :| 0 <= i < |command| && command[i] == '"' {
      QuoteIsLost(command, i, tail);
    } else {
      QuotedProgram(command, tail);
      var n := Trailing(command, 0);
      assert |command + Backslashes(n)| == |command| + n;
      assert command + Backslashes(0) == command;
    }
  }

  /** A quoted path that ends in a backslash comes back with two. */
  lemma BackslashComesBackTwice(args: seq<string>)
    ensures ParseProgram(CommandLine("a b\\", args)).0 == "a b\\\\"
  {
    var command := "a b\\";
    assert command[1] == ' ' && NeedsQuotes(command);
    assert command[1..] == " b\\" && " b\\"[1..] == "b\\" && "b\\"[1..] == "\\" && "\\"[1..] == "";
    assert Trailing(command, 0) == 1;
    QuotedProgram(command, Joined(args));
    assert Backslashes(1) == "\\";
  }
}
