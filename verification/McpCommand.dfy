/**
 * The install command of an MCP server as one line of text: the printer that
 * fills the prompt and the tokenizer that reads the line back.
 */
module McpCommand {
  import opened Prelude
  import opened JsText

  // ---------------------------------------------------------------- printer

  /** A character that makes an argument need quotes. */
  predicate Special(c: char) {
    IsSpace(c) || c == '"' || c == '\'' || c == '\\'
  }

  predicate Plain(arg: string) {
    arg != [] && forall i :: 0 <= i < |arg| ==> !Special(arg[i])
  }

  function EscapedChar(c: char): string {
    if c == '"' || c == '\\' then ['\\', c] else [c]
  }

  function Escaped(arg: string): (r: string)
    ensures |r| >= |arg|
  {
    if arg == [] then [] else EscapedChar(arg[0]) + Escaped(arg[1..])
  }

  /** An argument is left alone exactly if it needs no quotes; otherwise it stands between two. */
  function QuoteCommandArg(arg: string): (r: string)
    ensures r != [] && !IsSpace(r[0]) && !IsSpace(r[|r| - 1])
    ensures r == arg <==> Plain(arg)
    ensures r != arg ==> |r| >= |arg| + 2 && r[0] == '"' && r[|r| - 1] == '"'
  {
    if Plain(arg) then
      assert !Special(arg[0]) && !Special(arg[|arg| - 1]);
      arg
    else "\"" + Escaped(arg) + "\""
  }

  /** `argv.map(quoteCommandArg).join(" ")`. */
  function Render(argv: seq<string>): (r: string)
    ensures argv == [] ==> r == []
    ensures argv != [] ==> r != [] && !IsSpace(r[0]) && !IsSpace(r[|r| - 1])
  {
    if argv == [] then []
    else if |argv| == 1 then QuoteCommandArg(argv[0])
    else QuoteCommandArg(argv[0]) + " " + Render(argv[1..])
  }

  // -------------------------------------------------------------- tokenizer

  /**
   * The variables of the tokenizer's loop. `begun` says that the current
   * token has begun: the repository's tokenizer does not track it and so
   * cannot tell an empty quoted token from no token.
   */
  datatype Scan = Scan(tokens: seq<string>, current: string, quote: Option<char>, escaping: bool, begun: bool)

  const START := Scan([], "", None, false, false)

  function Begun(tokens: seq<string>): Scan {
    Scan(tokens, "", None, false, false)
  }

  /** Ends the current token. `keepEmpty` chooses between the two tokenizers. */
  function Flush(keepEmpty: bool, s: Scan): seq<string> {
    if (if keepEmpty then s.begun else s.current != []) then s.tokens + [s.current] else s.tokens
  }

  function Feed(keepEmpty: bool, s: Scan, c: char): Scan {
    if s.escaping then s.(current := s.current + [c], escaping := false)
    else if c == '\\' then s.(escaping := true, begun := true)
    else if s.quote.Some? then
      if c == s.quote.value then s.(quote := None) else s.(current := s.current + [c])
    else if c == '"' || c == '\'' then s.(quote := Some(c), begun := true)
    else if IsSpace(c) then Begun(Flush(keepEmpty, s))
    else s.(current := s.current + [c], begun := true)
  }

  function FeedAll(keepEmpty: bool, s: Scan, text: string): Scan
    decreases |text|
  {
    if text == [] then s else FeedAll(keepEmpty, Feed(keepEmpty, s, text[0]), text[1..])
  }

  /** A backslash at the very end stands for itself. */
  function Finish(keepEmpty: bool, s: Scan): seq<string> {
    Flush(keepEmpty, if s.escaping then s.(current := s.current + "\\") else s)
  }

  /** What the repository's tokenizer computes. */
  function Parse(input: string): seq<string> {
    Finish(false, FeedAll(false, START, Trim(input)))
  }

  /** The same tokenizer, keeping a token that was begun by quotes and is empty. */
  function Read(input: string): seq<string> {
    Finish(true, FeedAll(true, START, Trim(input)))
  }

  method ParseStdioCommand(input: string) returns (tokens: seq<string>)
    ensures tokens == Parse(input)
  {
    var current := "";
    var quote: Option<char> := None;
    var escaping := false;
    tokens := [];
    var text := Trim(input);
    ghost var begun := false;
    assert text[0..] == text;
    for i := 0 to |text|
      invariant FeedAll(false, Scan(tokens, current, quote, escaping, begun), text[i..]) == FeedAll(false, START, text)
    {
      var c := text[i];
      assert text[i..][0] == c && text[i..][1..] == text[i + 1..];
      if escaping {
        current := current + [c];
        escaping := false;
        continue;
      }
      if c == '\\' {
        escaping := true;
        begun := true;
        continue;
      }
      if quote.Some? {
        if c == quote.value {
          quote := None;
        } else {
          current := current + [c];
        }
        continue;
      }
      if c == '"' || c == '\'' {
        quote := Some(c);
        begun := true;
        continue;
      }
      if IsSpace(c) {
        if current != [] {
          tokens := tokens + [current];
          current := "";
        }
        begun := false;
        continue;
      }
      current := current + [c];
      begun := true;
    }
    if escaping {
      current := current + "\\";
    }
    if current != [] {
      tokens := tokens + [current];
    }
  }

  // -------------------------------------------------------------- round trip

  lemma {:induction false} FeedAppend(keepEmpty: bool, s: Scan, a: string, b: string)
    ensures FeedAll(keepEmpty, s, a + b) == FeedAll(keepEmpty, FeedAll(keepEmpty, s, a), b)
    decreases |a|
  {
    if a == [] {
      assert a + b == b;
    } else {
      assert (a + b)[0] == a[0] && (a + b)[1..] == a[1..] + b;
      FeedAppend(keepEmpty, Feed(keepEmpty, s, a[0]), a[1..], b);
    }
  }

  lemma {:induction false} FeedPlain(keepEmpty: bool, s: Scan, arg: string)
    requires s.quote.None? && !s.escaping && s.begun
    requires forall i :: 0 <= i < |arg| ==> !Special(arg[i])
    ensures FeedAll(keepEmpty, s, arg) == s.(current := s.current + arg)
    decreases |arg|
  {
    if arg == [] {
      assert s.current + arg == s.current;
    } else {
      assert !Special(arg[0]);
      var next := s.(current := s.current + [arg[0]]);
      assert Feed(keepEmpty, s, arg[0]) == next;
      FeedPlain(keepEmpty, next, arg[1..]);
      assert next.current + arg[1..] == s.current + arg;
    }
  }

  lemma FeedOne(keepEmpty: bool, s: Scan, c: char)
    ensures FeedAll(keepEmpty, s, [c]) == Feed(keepEmpty, s, c)
  {
    hide Feed;
    assert [c][1..] == [];
    assert FeedAll(keepEmpty, Feed(keepEmpty, s, c), []) == Feed(keepEmpty, s, c);
  }

  lemma FeedEscapedChar(keepEmpty: bool, s: Scan, c: char)
    requires s.quote == Some('"') && !s.escaping && s.begun
    ensures FeedAll(keepEmpty, s, EscapedChar(c)) == s.(current := s.current + [c])
  {
    if EscapedChar(c) == [c] {
      FeedOne(keepEmpty, s, c);
    } else {
      assert EscapedChar(c) == ['\\'] + [c];
      FeedAppend(keepEmpty, s, ['\\'], [c]);
      FeedOne(keepEmpty, s, '\\');
      FeedOne(keepEmpty, s.(escaping := true), c);
    }
  }

  lemma {:induction false} FeedEscaped(keepEmpty: bool, s: Scan, arg: string)
    requires s.quote == Some('"') && !s.escaping && s.begun
    ensures FeedAll(keepEmpty, s, Escaped(arg)) == s.(current := s.current + arg)
    decreases |arg|
  {
    hide Feed, EscapedChar;
    if arg == [] {
      assert s.current + arg == s.current;
    } else {
      var next := s.(current := s.current + [arg[0]]);
      FeedEscapedChar(keepEmpty, s, arg[0]);
      FeedAppend(keepEmpty, s, EscapedChar(arg[0]), Escaped(arg[1..]));
      FeedEscaped(keepEmpty, next, arg[1..]);
      assert next.current + arg[1..] == s.current + arg;
    }
  }

  /** Either tokenizer reads a printed argument as that argument. */
  lemma FeedQuoted(keepEmpty: bool, tokens: seq<string>, arg: string)
    ensures FeedAll(keepEmpty, Begun(tokens), QuoteCommandArg(arg)) == Scan(tokens, arg, None, false, true)
  {
    if Plain(arg) {
      assert !Special(arg[0]);
      var next := Scan(tokens, [arg[0]], None, false, true);
      assert Feed(keepEmpty, Begun(tokens), arg[0]) == next;
      FeedPlain(keepEmpty, next, arg[1..]);
      assert next.current + arg[1..] == arg;
    } else {
      var inside := Scan(tokens, "", Some('"'), false, true);
      var text := "\"" + Escaped(arg) + "\"";
      assert text[0] == '"' && text[1..] == Escaped(arg) + "\"";
      assert Feed(keepEmpty, Begun(tokens), '"') == inside;
      FeedAppend(keepEmpty, inside, Escaped(arg), "\"");
      FeedEscaped(keepEmpty, inside, arg);
      assert inside.current + arg == arg;
      var closing := inside.(current := arg);
      assert FeedAll(keepEmpty, closing, "\"") == Feed(keepEmpty, closing, '"') by {
        assert "\""[1..] == [];
      }
    }
  }

  /** A space between two arguments ends the first one. */
  lemma FeedGap(keepEmpty: bool, s: Scan, rest: string)
    requires s.quote.None? && !s.escaping
    ensures FeedAll(keepEmpty, s, " " + rest) == FeedAll(keepEmpty, Begun(Flush(keepEmpty, s)), rest)
  {
    assert (" " + rest)[0] == ' ' && (" " + rest)[1..] == rest;
    assert Feed(keepEmpty, s, ' ') == Begun(Flush(keepEmpty, s));
  }

  /** The arguments a tokenizer can give back. */
  function Kept(keepEmpty: bool, argv: seq<string>): (r: seq<string>)
    ensures |r| <= |argv|
    ensures keepEmpty ==> r == argv
    ensures r == argv <==> keepEmpty || "" !in argv
  {
    if argv == [] then []
    else
      assert "" in argv <==> argv[0] == "" || "" in argv[1..];
      assert argv == [argv[0]] + argv[1..];
      if keepEmpty || argv[0] != [] then [argv[0]] + Kept(keepEmpty, argv[1..])
      else Kept(keepEmpty, argv[1..])
  }

  lemma KeptFirst(keepEmpty: bool, tokens: seq<string>, argv: seq<string>)
    requires argv != []
    ensures Flush(keepEmpty, Scan(tokens, argv[0], None, false, true)) + Kept(keepEmpty, argv[1..])
      == tokens + Kept(keepEmpty, argv)
  {}

  lemma {:induction false} FeedRendered(keepEmpty: bool, tokens: seq<string>, argv: seq<string>)
    requires argv != []
    ensures Finish(keepEmpty, FeedAll(keepEmpty, Begun(tokens), Render(argv))) == tokens + Kept(keepEmpty, argv)
    decreases |argv|
  {
    hide Feed, FeedAll, QuoteCommandArg, Kept, Flush;
    var read := Scan(tokens, argv[0], None, false, true);
    var kept := Flush(keepEmpty, read);
    FeedQuoted(keepEmpty, tokens, argv[0]);
    KeptFirst(keepEmpty, tokens, argv);
    if |argv| == 1 {
      assert kept + [] == kept;
    } else {
      var q, rest := QuoteCommandArg(argv[0]), Render(argv[1..]);
      assert Render(argv) == q + (" " + rest);
      FeedAppend(keepEmpty, Begun(tokens), q, " " + rest);
      FeedGap(keepEmpty, read, rest);
      FeedRendered(keepEmpty, kept, argv[1..]);
    }
  }

  lemma Rendered(keepEmpty: bool, argv: seq<string>)
    ensures Finish(keepEmpty, FeedAll(keepEmpty, START, Trim(Render(argv)))) == Kept(keepEmpty, argv)
  {
    TrimNothing(Render(argv));
    assert START == Begun([]);
    if argv != [] {
      FeedRendered(keepEmpty, [], argv);
      assert [] + Kept(keepEmpty, argv) == Kept(keepEmpty, argv);
    }
  }

  /** A tokenizer that keeps empty quoted tokens reads every argument list back. */
  lemma ReadsBack(argv: seq<string>)
    ensures Read(Render(argv)) == argv
  {
    Rendered(true, argv);
  }

  /** Two argument lists never print as the same line. */
  lemma RenderInjective(a: seq<string>, b: seq<string>)
    requires Render(a) == Render(b)
    ensures a == b
  {
    ReadsBack(a);
    ReadsBack(b);
  }

  /** The repository's tokenizer reads the list back without its empty arguments. */
  lemma ParsesBack(argv: seq<string>)
    ensures Parse(Render(argv)) == Kept(false, argv)
    ensures Parse(Render(argv)) == argv <==> "" !in argv
  {
    Rendered(false, argv);
  }

  /** What accepting a line at the prompt configures: the program and its arguments. */
  function AcceptLine(line: string): (string, seq<string>) {
    var parts := Parse(line);
    if parts == [] then ("", []) else (parts[0], parts[1..])
  }

  /**
   * Accepting the pre-filled line as it stands configures the command that was
   * asked for exactly when no argument is empty.
   */
  lemma PrefilledLineKeepsCommand(command: string, args: seq<string>)
    requires Trim(command) != []
    ensures AcceptLine(Render([command] + args)) == (command, args) <==> "" !in args
  {
    var argv := [command] + args;
    ParsesBack(argv);
    TrimNothing([]);
    assert argv[0] == command && argv[1..] == args;
    assert "" in argv <==> "" in args;
    var parts := Parse(Render(argv));
    if parts != [] && parts[0] == command && parts[1..] == args {
      assert parts == argv;
    }
  }
}
