/** src/shellQuote.ts, src/aplexerCommands.ts and src/userBinPath.ts: commands for a remote
    shell, read back by the rules of section 2.2 and 2.3 of the POSIX.1-2017 Shell Command
    Language. */
module ShellQuote {
  import opened Collections
  import opened Texts

  // ----- how the shell reads a command -----

  /** A character of a word: unquoted, quoted for good, or in double quotes, where a dollar
      sign or a backquote still expands. */
  datatype Sym = Plain(c: char) | Literal(c: char) | InDouble(c: char)

  datatype Token = Word(syms: seq<Sym>) | Operator(c: char)

  datatype Mode = Bare | Single | Double

  datatype Tokens = Unterminated | Tokens(tokens: seq<Token>)

  predicate IsOperator(c: char) {
    c in {';', '&', '|', '<', '>', '(', ')', '\n'}
  }

  predicate IsBlank(c: char) {
    c == ' ' || c == '\t'
  }

  function Prepend(token: Token, rest: Tokens): Tokens {
    if rest.Unterminated? then Unterminated else Tokens([token] + rest.tokens)
  }

  /** Ends the word being read, if there is one. */
  function Flush(word: Option<seq<Sym>>, rest: Tokens): Tokens {
    if word.None? then rest else Prepend(Word(word.value), rest)
  }

  function Begun(word: Option<seq<Sym>>): seq<Sym> {
    if word.None? then [] else word.value
  }

  function SkipComment(text: string): (rest: string)
    ensures |rest| <= |text|
  {
    if text == "" || text[0] == '\n' then text else SkipComment(text[1..])
  }

  function Scan(text: string, mode: Mode, word: Option<seq<Sym>>): Tokens
    decreases |text|
  {
    if text == "" then (if mode == Bare then Flush(word, Tokens([])) else Unterminated)
    else
      var c, rest := text[0], text[1..];
      match mode
      case Single =>
        if c == '\'' then Scan(rest, Bare, Some(Begun(word))) else Scan(rest, Single, Some(Begun(word) + [Literal(c)]))
      case Double =>
        if c == '"' then Scan(rest, Bare, Some(Begun(word)))
        else if c == '\\' && rest != "" && rest[0] == '\n' then Scan(rest[1..], Double, Some(Begun(word)))
        else if c == '\\' && rest != "" && rest[0] in {'$', '`', '"', '\\'} then
          Scan(rest[1..], Double, Some(Begun(word) + [Literal(rest[0])]))
        else Scan(rest, Double, Some(Begun(word) + [InDouble(c)]))
      case Bare =>
        if c == '\'' then Scan(rest, Single, Some(Begun(word)))
        else if c == '"' then Scan(rest, Double, Some(Begun(word)))
        else if c == '\\' then
          if rest == "" then Unterminated
          else if rest[0] == '\n' then Scan(rest[1..], Bare, word)
          else Scan(rest[1..], Bare, Some(Begun(word) + [Literal(rest[0])]))
        else if IsBlank(c) then Flush(word, Scan(rest, Bare, None))
        else if IsOperator(c) then Flush(word, Prepend(Operator(c), Scan(rest, Bare, None)))
        else if c == '#' && word.None? then Scan(SkipComment(rest), Bare, None)
        else Scan(rest, Bare, Some(Begun(word) + [Plain(c)]))
  }

  function Tokenise(text: string): Tokens {
    Scan(text, Bare, None)
  }

  // ----- quoting -----

  /** `replace(/'/g, "'\\''")`. */
  function EscapeInsideSingleQuotes(value: string): string {
    if value == "" then ""
    else (if value[0] == '\'' then "'\\''" else [value[0]]) + EscapeInsideSingleQuotes(value[1..])
  }

  function Quote(value: string): string {
    "'" + EscapeInsideSingleQuotes(value) + "'"
  }

  function QuoteRemotePath(value: string): string {
    var trimmed := if Trim(value) == "" then "~" else Trim(value);
    if trimmed == "~" || trimmed == "$HOME" then "$HOME"
    else if "~/" <= trimmed then "$HOME/" + Quote(trimmed[2..])
    else if "$HOME/" <= trimmed then "$HOME/" + Quote(trimmed[6..])
    else Quote(trimmed)
  }

  function Literals(value: string): seq<Sym> {
    if value == "" then [] else [Literal(value[0])] + Literals(value[1..])
  }

  function Plains(value: string): seq<Sym> {
    if value == "" then [] else [Plain(value[0])] + Plains(value[1..])
  }

  function InDoubles(value: string): seq<Sym> {
    if value == "" then [] else [InDouble(value[0])] + InDoubles(value[1..])
  }

  /** What a remote path is read as: at most a home prefix is left to expand. */
  function RemotePathWord(value: string): seq<Sym> {
    var trimmed := if Trim(value) == "" then "~" else Trim(value);
    if trimmed == "~" || trimmed == "$HOME" then Plains("$HOME")
    else if "~/" <= trimmed then Plains("$HOME/") + Literals(trimmed[2..])
    else if "$HOME/" <= trimmed then Plains("$HOME/") + Literals(trimmed[6..])
    else Literals(trimmed)
  }

  lemma {:induction false} ScanInside(value: string, rest: string, word: seq<Sym>)
    ensures Scan(EscapeInsideSingleQuotes(value) + "'" + rest, Single, Some(word)) == Scan(rest, Bare, Some(word + Literals(value)))
  {
    var escaped := EscapeInsideSingleQuotes(value);
    if value == "" {
      assert (escaped + "'" + rest)[1..] == rest && word + [] == word;
    } else {
      var tail := EscapeInsideSingleQuotes(value[1..]) + "'" + rest;
      ScanInside(value[1..], rest, word + [Literal(value[0])]);
      assert word + [Literal(value[0])] + Literals(value[1..]) == word + Literals(value);
      if value[0] == '\'' {
        assert escaped + "'" + rest == "'" + ("\\" + ("'" + ("'" + tail)));
        QuoteReopens(tail, word);
      } else {
        assert (escaped + "'" + rest)[1..] == tail;
      }
    }
  }

  /** Close, an escaped quote, reopen. */
  lemma QuoteReopens(tail: string, word: seq<Sym>)
    ensures Scan("'" + ("\\" + ("'" + ("'" + tail))), Single, Some(word)) == Scan(tail, Single, Some(word + [Literal('\'')]))
  {
    var t3 := "'" + tail;
    var t2 := "'" + t3;
    var t1 := "\\" + t2;
    assert ("'" + t1)[1..] == t1 && t1[1..] == t2 && t2[1..] == t3 && t3[1..] == tail;
    assert Scan(t3, Bare, Some(word + [Literal('\'')])) == Scan(tail, Single, Some(word + [Literal('\'')]));
    assert Scan(t1, Bare, Some(word)) == Scan(t3, Bare, Some(word + [Literal('\'')]));
  }

  /** A quoted value is read as exactly its characters, none of which can expand. */
  lemma ScanQuote(value: string, rest: string, word: Option<seq<Sym>>)
    ensures Scan(Quote(value) + rest, Bare, word) == Scan(rest, Bare, Some(Begun(word) + Literals(value)))
  {
    var inside := EscapeInsideSingleQuotes(value) + "'" + rest;
    assert (Quote(value) + rest)[1..] == inside;
    ScanInside(value, rest, Begun(word));
  }

  /** Characters that mean themselves wherever they stand. */
  predicate IsOrdinary(c: char) {
    !IsBlank(c) && !IsOperator(c) && c !in {'\'', '"', '\\', '#'}
  }

  predicate Ordinary(text: string) {
    forall i | 0 <= i < |text| :: IsOrdinary(text[i])
  }

  lemma {:induction false} ScanPlain(text: string, rest: string, word: Option<seq<Sym>>)
    requires text != "" && Ordinary(text)
    ensures Scan(text + rest, Bare, word) == Scan(rest, Bare, Some(Begun(word) + Plains(text)))
    decreases |text|
  {
    assert (text + rest)[1..] == text[1..] + rest && IsOrdinary(text[0]);
    var begun := Begun(word) + [Plain(text[0])];
    if |text| == 1 {
      assert text[1..] + rest == rest && Plains(text[1..]) == [] && Plains(text) == [Plain(text[0])];
    } else {
      ScanPlain(text[1..], rest, Some(begun));
      assert begun + Plains(text[1..]) == Begun(word) + Plains(text);
    }
  }

  lemma FromNothing(syms: seq<Sym>)
    ensures Begun(None) + syms == syms
  {
  }

  lemma ScanRemotePath(value: string, rest: string)
    ensures Scan(QuoteRemotePath(value) + rest, Bare, None) == Scan(rest, Bare, Some(RemotePathWord(value)))
  {
    hide Scan, Trim, Quote, Plains, Literals;
    var trimmed := if Trim(value) == "" then "~" else Trim(value);
    if trimmed == "~" || trimmed == "$HOME" {
      ScanPlain("$HOME", rest, None);
      FromNothing(Plains("$HOME"));
    } else if "~/" <= trimmed || "$HOME/" <= trimmed {
      var path := if "~/" <= trimmed then trimmed[2..] else trimmed[6..];
      assert QuoteRemotePath(value) + rest == "$HOME/" + (Quote(path) + rest);
      ScanPlain("$HOME/", Quote(path) + rest, None);
      FromNothing(Plains("$HOME/"));
      ScanQuote(path, rest, Some(Plains("$HOME/")));
    } else {
      ScanQuote(trimmed, rest, None);
      FromNothing(Literals(trimmed));
    }
  }

  // ----- whole commands -----

  /** An argument of a command line. */
  datatype Arg = Fixed(text: string) | Value(value: string) | RemotePath(path: string)

  function Render(arg: Arg): string {
    match arg
    case Fixed(text) => text
    case Value(value) => Quote(value)
    case RemotePath(path) => QuoteRemotePath(path)
  }

  function WordOf(arg: Arg): seq<Sym> {
    match arg
    case Fixed(text) => Plains(text)
    case Value(value) => Literals(value)
    case RemotePath(path) => RemotePathWord(path)
  }

  predicate IsArg(arg: Arg) {
    arg.Fixed? ==> arg.text != "" && Ordinary(arg.text)
  }

  /** The arguments, separated by single spaces. */
  function Line(args: seq<Arg>): string {
    if args == [] then ""
    else if |args| == 1 then Render(args[0])
    else Render(args[0]) + " " + Line(args[1..])
  }

  function WordsOf(args: seq<Arg>): seq<Token> {
    if args == [] then [] else [Word(WordOf(args[0]))] + WordsOf(args[1..])
  }

  lemma ScanArg(arg: Arg, rest: string)
    requires IsArg(arg)
    ensures Scan(Render(arg) + rest, Bare, None) == Scan(rest, Bare, Some(WordOf(arg)))
  {
    hide Scan, Quote, QuoteRemotePath, RemotePathWord;
    match arg
    case Fixed(text) =>
      ScanPlain(text, rest, None);
      FromNothing(Plains(text));
    case Value(value) =>
      ScanQuote(value, rest, None);
      FromNothing(Literals(value));
    case RemotePath(path) => ScanRemotePath(path, rest);
  }

  lemma ScanSpace(rest: string, word: seq<Sym>)
    ensures Scan(" " + rest, Bare, Some(word)) == Prepend(Word(word), Scan(rest, Bare, None))
  {
    assert (" " + rest)[1..] == rest;
  }

  lemma ScanEnd(word: seq<Sym>)
    ensures Scan("", Bare, Some(word)) == Tokens([Word(word)])
  {
  }

  /** Every command line is read as exactly its arguments. */
  lemma {:induction false} LineReadsBack(args: seq<Arg>)
    requires args != [] && forall i | 0 <= i < |args| :: IsArg(args[i])
    ensures Tokenise(Line(args)) == Tokens(WordsOf(args))
  {
    hide Scan, Render, WordOf, IsArg;
    assert IsArg(args[0]);
    if |args| == 1 {
      ScanArg(args[0], "");
      assert Render(args[0]) + "" == Render(args[0]);
      ScanEnd(WordOf(args[0]));
      assert WordsOf(args) == [Word(WordOf(args[0]))];
    } else {
      assert forall i | 0 <= i < |args[1..]| :: args[1..][i] == args[i + 1];
      LineReadsBack(args[1..]);
      var rest := Line(args[1..]);
      assert Line(args) == Render(args[0]) + (" " + rest);
      ScanArg(args[0], " " + rest);
      ScanSpace(rest, WordOf(args[0]));
    }
  }

  // ----- the aplexer commands -----

  function KillCommand(id: string): string {
    "a kill " + Quote(id) + " --json"
  }

  function StartCommand(workspace: string, tag: string): string {
    "a start --workspace " + QuoteRemotePath(workspace) + " --tag " + Quote(tag) + " --json"
  }

  function RenameCommand(id: string, tag: string): string {
    "a rename " + Quote(id) + " --tag " + Quote(tag)
  }

  function AckCommand(target: Option<string>): string {
    if target.None? then "a ack" else "a ack " + Quote(target.value)
  }

  function KillArgs(id: string): seq<Arg> {
    [Fixed("a"), Fixed("kill"), Value(id), Fixed("--json")]
  }

  function StartArgs(workspace: string, tag: string): seq<Arg> {
    [Fixed("a"), Fixed("start"), Fixed("--workspace"), RemotePath(workspace), Fixed("--tag"), Value(tag), Fixed("--json")]
  }

  function RenameArgs(id: string, tag: string): seq<Arg> {
    [Fixed("a"), Fixed("rename"), Value(id), Fixed("--tag"), Value(tag)]
  }

  function AckArgs(target: Option<string>): seq<Arg> {
    [Fixed("a"), Fixed("ack")] + if target.None? then [] else [Value(target.value)]
  }

  lemma LineStep(args: seq<Arg>)
    requires |args| > 1
    ensures Line(args) == Render(args[0]) + " " + Line(args[1..])
  {
  }

  lemma StartTailIsLine(tag: string)
    ensures Line([Fixed("--tag"), Value(tag), Fixed("--json")]) == "--tag " + Quote(tag) + " --json"
  {
    hide Quote;
    var args := [Fixed("--tag"), Value(tag), Fixed("--json")];
    assert args[1..] == [Value(tag), Fixed("--json")] && args[1..][1..] == [Fixed("--json")];
    assert Line(args[1..]) == Quote(tag) + " --json";
  }

  lemma StartIsLine(workspace: string, tag: string)
    ensures StartCommand(workspace, tag) == Line(StartArgs(workspace, tag))
  {
    hide Quote, QuoteRemotePath;
    var path := QuoteRemotePath(workspace);
    var end := [Fixed("--tag"), Value(tag), Fixed("--json")];
    var args := StartArgs(workspace, tag);
    StartTailIsLine(tag);
    var tail := Line(end);
    assert args[1..][1..] == args[2..] && args[2..][1..] == args[3..] && args[3..][1..] == end;
    LineStep(args[3..]);
    LineStep(args[2..]);
    LineStep(args[1..]);
    LineStep(args);
    hide Line;
    assert Line(args) == "a" + " " + ("start" + " " + ("--workspace" + " " + (path + " " + tail)));
    StartHead(path, tail);
    StartWhole(path, Quote(tag));
  }

  lemma StartHead(path: string, tail: string)
    ensures "a" + " " + ("start" + " " + ("--workspace" + " " + (path + " " + tail))) == "a start --workspace " + path + " " + tail
  {
    assert "--workspace" + " " + (path + " " + tail) == "--workspace " + path + " " + tail;
    assert "start" + " " + ("--workspace " + path + " " + tail) == "start --workspace " + path + " " + tail;
  }

  lemma StartWhole(path: string, tag: string)
    ensures "a start --workspace " + path + " " + ("--tag " + tag + " --json")
              == "a start --workspace " + path + " --tag " + tag + " --json"
  {
    assert " " + ("--tag " + tag + " --json") == " --tag " + tag + " --json";
  }

  lemma KillIsLine(id: string)
    ensures KillCommand(id) == Line(KillArgs(id))
  {
    hide Quote;
    var args := KillArgs(id);
    assert args[1..][1..] == args[2..] && args[2..][1..] == args[3..];
    assert Line(args[2..]) == Quote(id) + " --json";
    assert Line(args[1..]) == "kill " + Quote(id) + " --json";
  }

  lemma RenameIsLine(id: string, tag: string)
    ensures RenameCommand(id, tag) == Line(RenameArgs(id, tag))
  {
    hide Quote;
    var args := RenameArgs(id, tag);
    assert args[1..][1..] == args[2..] && args[2..][1..] == args[3..] && args[3..][1..] == args[4..];
    assert Line(args[3..]) == "--tag " + Quote(tag);
    assert Line(args[2..]) == Quote(id) + " --tag " + Quote(tag);
    assert Line(args[1..]) == "rename " + Quote(id) + " --tag " + Quote(tag);
  }

  lemma AckIsLine(target: Option<string>)
    ensures AckCommand(target) == Line(AckArgs(target))
  {
    hide Quote;
    var args := AckArgs(target);
    if target.Some? {
      assert args[1..][1..] == args[2..];
      assert Line(args[1..]) == "ack " + Quote(target.value);
    }
  }

  // ----- the path-aware wrapper -----

  /** The user's own directories, searched before the rest of the path. */
  function UserBinDirs(): seq<string> {
    ["$HOME/.local/bin", "$HOME/bin", "$HOME/.cargo/bin", "$HOME/.local/share/uv/tools/pocketshell/bin",
     "$HOME/.local/pipx/venvs/pocketshell/bin"]
  }

  function JoinColons(dirs: seq<string>): string {
    if dirs == [] then "" else if |dirs| == 1 then dirs[0] else dirs[0] + ":" + JoinColons(dirs[1..])
  }

  function SearchPath(): string {
    JoinColons(UserBinDirs()) + ":$PATH"
  }

  function Preamble(): string {
    "export PATH=\"" + SearchPath() + "\"; "
  }

  function PathAwareCommand(command: string): string {
    "/bin/sh -lc '" + Preamble() + EscapeInsideSingleQuotes(command) + "'"
  }

  /** The words of the preamble: PATH is set to the user's directories and its old value. */
  function PreambleTokens(): seq<Token> {
    [Word(Plains("export")), Word(Plains("PATH=") + InDoubles(SearchPath())), Operator(';')]
  }

  lemma {:induction false} EscapeNothing(text: string)
    requires forall i | 0 <= i < |text| :: text[i] != '\''
    ensures EscapeInsideSingleQuotes(text) == text
  {
    if text != "" {
      EscapeNothing(text[1..]);
    }
  }

  lemma {:induction false} EscapeAppend(a: string, b: string)
    ensures EscapeInsideSingleQuotes(a + b) == EscapeInsideSingleQuotes(a) + EscapeInsideSingleQuotes(b)
  {
    if a == "" {
      assert a + b == b;
    } else {
      assert (a + b)[1..] == a[1..] + b;
      EscapeAppend(a[1..], b);
    }
  }

  predicate IsUnquoted(c: char) {
    c != '"' && c != '\\' && c != '\''
  }

  predicate Unquoted(text: string) {
    forall i | 0 <= i < |text| :: IsUnquoted(text[i])
  }

  lemma {:induction false} ScanDouble(text: string, rest: string, word: seq<Sym>)
    requires Unquoted(text)
    ensures Scan(text + ("\"" + rest), Double, Some(word)) == Scan(rest, Bare, Some(word + InDoubles(text)))
  {
    var closing := "\"" + rest;
    if text == "" {
      assert text + closing == closing && closing[1..] == rest && word + [] == word;
    } else {
      assert (text + closing)[1..] == text[1..] + closing && IsUnquoted(text[0]);
      ScanDouble(text[1..], rest, word + [InDouble(text[0])]);
      assert word + [InDouble(text[0])] + InDoubles(text[1..]) == word + InDoubles(text);
    }
  }

  lemma DotDirsAreUnquoted()
    ensures Unquoted("$HOME/.local/share/uv/tools/pocketshell/bin")
    ensures Unquoted("$HOME/.local/pipx/venvs/pocketshell/bin")
  {
  }

  lemma DirsAreUnquoted()
    ensures forall k | 0 <= k < |UserBinDirs()| :: Unquoted(UserBinDirs()[k])
  {
    DotDirsAreUnquoted();
    assert Unquoted("$HOME/.local/bin");
    assert Unquoted("$HOME/bin");
    assert Unquoted("$HOME/.cargo/bin");
    hide Unquoted;
  }

  lemma {:induction false} JoinedUnquoted(dirs: seq<string>)
    requires forall k | 0 <= k < |dirs| :: Unquoted(dirs[k])
    ensures Unquoted(JoinColons(dirs))
  {
    if |dirs| > 1 {
      assert Unquoted(dirs[0]);
      JoinedUnquoted(dirs[1..]);
    }
  }

  lemma SearchPathIsUnquoted()
    ensures Unquoted(SearchPath())
  {
    DirsAreUnquoted();
    hide UserBinDirs;
    JoinedUnquoted(UserBinDirs());
    assert Unquoted(":$PATH");
  }

  lemma PreambleIsUnquoted()
    ensures forall i | 0 <= i < |Preamble()| :: Preamble()[i] != '\''
  {
    hide SearchPath;
    SearchPathIsUnquoted();
  }

  lemma OpenDouble(rest: string, word: seq<Sym>)
    ensures Scan("\"" + rest, Bare, Some(word)) == Scan(rest, Double, Some(word))
  {
    assert ("\"" + rest)[1..] == rest;
  }

  lemma ScanSemicolon(command: string, word: seq<Sym>)
    ensures Scan("; " + command, Bare, Some(word))
              == Prepend(Word(word), Prepend(Operator(';'), Scan(command, Bare, None)))
  {
    assert ("; " + command)[1..] == " " + command && (" " + command)[1..] == command;
  }

  lemma PreambleSplits(command: string)
    ensures Preamble() + command == "export" + (" " + ("PATH=" + ("\"" + (SearchPath() + ("\"" + ("; " + command))))))
  {
    hide SearchPath;
  }

  /** The preamble is read as its own words, then the command as its own. */
  lemma PreambleReadsBack(command: string)
    ensures Tokenise(Preamble() + command)
              == Prepend(Word(Plains("export")),
                         Prepend(Word(Plains("PATH=") + InDoubles(SearchPath())), Prepend(Operator(';'), Tokenise(command))))
  {
    hide Scan, Plains, InDoubles, SearchPath, Preamble, Prepend;
    var t3 := "; " + command;
    var t2 := SearchPath() + ("\"" + t3);
    var t1 := "PATH=" + ("\"" + t2);
    PreambleSplits(command);
    ScanPlain("export", " " + t1, None);
    FromNothing(Plains("export"));
    ScanSpace(t1, Plains("export"));
    ScanPlain("PATH=", "\"" + t2, None);
    FromNothing(Plains("PATH="));
    OpenDouble(t2, Plains("PATH="));
    SearchPathIsUnquoted();
    ScanDouble(SearchPath(), t3, Plains("PATH="));
    ScanSemicolon(command, Plains("PATH=") + InDoubles(SearchPath()));
  }

  lemma WrapperIsLine(command: string)
    ensures PathAwareCommand(command) == Line(WrapperArgs(command))
  {
    hide EscapeInsideSingleQuotes, Preamble;
    PreambleIsUnquoted();
    EscapeNothing(Preamble());
    EscapeAppend(Preamble(), command);
    var args := WrapperArgs(command);
    assert args[1..][1..] == args[2..];
    assert Line(args[2..]) == Quote(Preamble() + command);
    assert Line(args[1..]) == "-lc " + Quote(Preamble() + command);
  }

  /** What the outer shell is meant to run. */
  function WrapperArgs(command: string): seq<Arg> {
    [Fixed("/bin/sh"), Fixed("-lc"), Value(Preamble() + command)]
  }

  /** The outer shell gets three words, the last one the whole script, unexpanded. */
  lemma WrapperReadsBack(command: string)
    ensures Tokenise(PathAwareCommand(command))
              == Tokens([Word(Plains("/bin/sh")), Word(Plains("-lc")), Word(Literals(Preamble() + command))])
  {
    hide Scan, Tokenise, PathAwareCommand, Preamble, Plains, Literals, Line;
    WrapperIsLine(command);
    var args := WrapperArgs(command);
    LineReadsBack(args);
    assert args[1..][1..] == args[2..] && args[2..][1..] == [];
    assert WordsOf(args[2..]) == [Word(Literals(Preamble() + command))];
  }

  lemma PrependThree(a: Token, b: Token, c: Token, tokens: seq<Token>)
    ensures Prepend(a, Prepend(b, Prepend(c, Tokens(tokens)))) == Tokens([a, b, c] + tokens)
  {
    assert [a] + ([b] + ([c] + tokens)) == [a, b, c] + tokens;
  }

  /** Read twice, a wrapped command is exactly the intended argument list: every id and tag
      arrives as it is, and only a leading home prefix of a path is left to expand. */
  lemma NestedRoundTrip(args: seq<Arg>)
    requires args != [] && forall i | 0 <= i < |args| :: IsArg(args[i])
    ensures Tokenise(PathAwareCommand(Line(args)))
              == Tokens([Word(Plains("/bin/sh")), Word(Plains("-lc")), Word(Literals(Preamble() + Line(args)))])
    ensures Tokenise(Preamble() + Line(args)) == Tokens(PreambleTokens() + WordsOf(args))
  {
    hide Tokenise, PathAwareCommand, Preamble, Line, IsArg, Plains, Literals, InDoubles, SearchPath, WordsOf, Prepend;
    WrapperReadsBack(Line(args));
    PreambleReadsBack(Line(args));
    LineReadsBack(args);
    PrependThree(Word(Plains("export")), Word(Plains("PATH=") + InDoubles(SearchPath())), Operator(';'), WordsOf(args));
  }

  /** The commands the clients run, each as the argument list it must arrive as. */
  lemma CommandsAreLines(workspace: string, id: string, tag: string, target: Option<string>)
    ensures StartCommand(workspace, tag) == Line(StartArgs(workspace, tag))
    ensures KillCommand(id) == Line(KillArgs(id))
    ensures RenameCommand(id, tag) == Line(RenameArgs(id, tag))
    ensures AckCommand(target) == Line(AckArgs(target))
  {
    hide *;
    StartIsLine(workspace, tag);
    KillIsLine(id);
    RenameIsLine(id, tag);
    AckIsLine(target);
  }

  predicate AllArgs(args: seq<Arg>) {
    args != [] && forall i | 0 <= i < |args| :: IsArg(args[i])
  }

  lemma FixedWords()
    ensures Ordinary("a") && Ordinary("start") && Ordinary("kill") && Ordinary("rename") && Ordinary("ack")
    ensures Ordinary("--workspace") && Ordinary("--tag") && Ordinary("--json")
  {
  }

  lemma CommandArgs(workspace: string, id: string, tag: string, target: Option<string>)
    ensures AllArgs(StartArgs(workspace, tag)) && AllArgs(KillArgs(id)) && AllArgs(RenameArgs(id, tag)) && AllArgs(AckArgs(target))
  {
    hide Ordinary;
    FixedWords();
  }

  lemma ReadTwice(args: seq<Arg>)
    requires AllArgs(args)
    ensures ArrivesAs(Line(args), args)
  {
    hide Tokenise, PathAwareCommand, Preamble, Line, IsArg, PreambleTokens, WordsOf;
    NestedRoundTrip(args);
  }

  /** The outer shell hands one script to the inner one, and that reads the argument list. */
  predicate ArrivesAs(command: string, args: seq<Arg>) {
    && Tokenise(PathAwareCommand(command))
         == Tokens([Word(Plains("/bin/sh")), Word(Plains("-lc")), Word(Literals(Preamble() + command))])
    && Tokenise(Preamble() + command) == Tokens(PreambleTokens() + WordsOf(args))
  }

  /** For all ids, tags, paths and targets, both shells together give the intended arguments. */
  lemma CommandsRoundTrip(workspace: string, id: string, tag: string, target: Option<string>)
    ensures ArrivesAs(StartCommand(workspace, tag), StartArgs(workspace, tag))
    ensures ArrivesAs(KillCommand(id), KillArgs(id))
    ensures ArrivesAs(RenameCommand(id, tag), RenameArgs(id, tag))
    ensures ArrivesAs(AckCommand(target), AckArgs(target))
  {
    hide *;
    CommandsAreLines(workspace, id, tag, target);
    CommandArgs(workspace, id, tag, target);
    ReadTwice(StartArgs(workspace, tag));
    ReadTwice(KillArgs(id));
    ReadTwice(RenameArgs(id, tag));
    ReadTwice(AckArgs(target));
  }

  // ----- what can still expand -----

  lemma {:induction false} LiteralsAt(value: string)
    ensures |Literals(value)| == |value| && forall i | 0 <= i < |value| :: Literals(value)[i] == Literal(value[i])
  {
    if value != "" {
      LiteralsAt(value[1..]);
    }
  }

  lemma {:induction false} PlainsAt(value: string)
    ensures |Plains(value)| == |value| && forall i | 0 <= i < |value| :: Plains(value)[i] == Plain(value[i])
  {
    if value != "" {
      PlainsAt(value[1..]);
    }
  }

  predicate IsHomePrefix(prefix: string) {
    prefix == "" || prefix == "$HOME" || prefix == "$HOME/"
  }

  /** A word is a home prefix left to the shell, then characters quoted for good. */
  predicate OnlyHomeExpands(word: seq<Sym>, prefix: string) {
    && IsHomePrefix(prefix) && |prefix| <= |word|
    && (forall i | 0 <= i < |prefix| :: word[i] == Plain(prefix[i]))
    && (forall i | |prefix| <= i < |word| :: word[i].Literal?)
  }

  /** Of any path, blank or not, at most a leading home is left for the shell to expand: no
      other tilde, dollar sign, backquote or pattern in it can. */
  lemma PathExpandsOnlyHome(path: string) returns (prefix: string)
    ensures OnlyHomeExpands(RemotePathWord(path), prefix)
    ensures prefix == "" <==> var t := Trim(path); t != "" && t != "~" && t != "$HOME" && !("~/" <= t) && !("$HOME/" <= t)
  {
    var trimmed := if Trim(path) == "" then "~" else Trim(path);
    hide Trim;
    if trimmed == "~" || trimmed == "$HOME" {
      prefix := "$HOME";
    } else if "~/" <= trimmed || "$HOME/" <= trimmed {
      prefix := "$HOME/";
      LiteralsAt(if "~/" <= trimmed then trimmed[2..] else trimmed[6..]);
    } else {
      prefix := "";
      LiteralsAt(trimmed);
    }
    PlainsAt(prefix);
    hide Plains, Literals;
  }

  // ----- quoting loses nothing -----

  lemma {:induction false} LiteralsDiffer(a: string, b: string)
    requires Literals(a) == Literals(b)
    ensures a == b
  {
    if a == "" || b == "" {
    } else {
      assert Literals(a)[0] == Literals(b)[0] && Literals(a)[1..] == Literals(b)[1..];
      LiteralsDiffer(a[1..], b[1..]);
    }
  }

  /** Two values are never quoted alike. */
  lemma QuoteIsInjective(a: string, b: string)
    requires Quote(a) == Quote(b)
    ensures a == b
  {
    assert Quote(a) + "" == Quote(a) && Quote(b) + "" == Quote(b);
    ScanQuote(a, "", None);
    ScanQuote(b, "", None);
    FromNothing(Literals(a));
    FromNothing(Literals(b));
    ScanEnd(Literals(a));
    ScanEnd(Literals(b));
    assert [Word(Literals(a))][0] == [Word(Literals(b))][0];
    LiteralsDiffer(a, b);
  }
}
