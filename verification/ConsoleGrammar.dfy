/** The literal console grammar for Cargo commands (src/cargo_policy.rs). */
module ConsoleGrammar {
  import opened CargoActions
  import opened Common

  const MAX_INPUT_BYTES := 4096
  const MAX_TEST_CASE_ARGS := 64
  const MAX_TEST_CASE_ARG_BYTES := 1024
  const MAX_TEST_CASE_ARGS_FILE_BYTES := 8 * 1024

  datatype ConsoleCommand = ConsoleCommand(
    action: Action,
    argv: seq<string>,
    args: seq<string>,
    stdin: Option<string>,
    stdout: Option<string>)

  /** The bounded grammars of single words, which this module only consults. */
  datatype Words = Words(testTail: seq<string> -> bool, dependency: string -> bool, name: string -> bool,
      path: string -> bool)

  // ----- Characters -----

  predicate IsControl(c: char) {
    c as int < 32 || 127 <= c as int <= 159
  }

  predicate IsSpace(c: char) {
    c in " \t\n\r" || c as int == 12
  }

  predicate IsShell(c: char) {
    c in "'\"\\$`|&;*?[]{}()!~#"
  }

  predicate IsRefusedInArgument(c: char) {
    c in "'\"`|&;<>"
  }

  predicate HasControl(s: string) {
    exists i | 0 <= i < |s| :: IsControl(s[i])
  }

  predicate HasShell(s: string) {
    exists i | 0 <= i < |s| :: IsShell(s[i])
  }

  predicate HasRefused(s: string) {
    exists i | 0 <= i < |s| :: IsRefusedInArgument(s[i])
  }

  /** The bytes of a character in UTF-8. */
  function Width(c: char): (n: nat)
    ensures 1 <= n <= 4
  {
    var n := c as int;
    if n < 0x80 then 1 else if n < 0x800 then 2 else if n < 0x1_0000 then 3 else 4
  }

  function ByteLength(s: string): nat {
    if s == "" then 0 else Width(s[0]) + ByteLength(s[1..])
  }

  lemma {:induction false} ByteLengthConcat(a: string, b: string)
    ensures ByteLength(a + b) == ByteLength(a) + ByteLength(b)
  {
    if a == "" {
      assert a + b == b;
    } else {
      ByteLengthConcat(a[1..], b);
      assert (a + b)[0] == a[0] && (a + b)[1..] == a[1..] + b;
    }
  }

  // ----- Tokens -----

  /** The words of a text between ASCII spaces, the first one continuing `word`. */
  function SplitFrom(text: string, word: string): seq<string> {
    if text == "" then WordOrNone(word)
    else if IsSpace(text[0]) then WordOrNone(word) + SplitFrom(text[1..], "")
    else SplitFrom(text[1..], word + [text[0]])
  }

  function WordOrNone(word: string): seq<string> {
    if word == "" then [] else [word]
  }

  function Split(text: string): seq<string> {
    SplitFrom(text, "")
  }

  /** The words with one space between them. */
  function Join(words: seq<string>): string {
    if words == [] then "" else if |words| == 1 then words[0] else words[0] + " " + Join(words[1..])
  }

  predicate IsWord(s: string) {
    s != "" && forall i | 0 <= i < |s| :: !IsSpace(s[i])
  }

  predicate AreWords(words: seq<string>) {
    forall w | w in words :: IsWord(w)
  }

  lemma {:induction false} SplitTakesWord(word: string, rest: string, begun: string)
    requires forall i | 0 <= i < |word| :: !IsSpace(word[i])
    ensures SplitFrom(word + rest, begun) == SplitFrom(rest, begun + word)
    decreases |word|
  {
    if word == "" {
      assert word + rest == rest && begun + word == begun;
    } else {
      assert (word + rest)[0] == word[0] && (word + rest)[1..] == word[1..] + rest;
      SplitTakesWord(word[1..], rest, begun + [word[0]]);
      assert begun + [word[0]] + word[1..] == begun + word;
    }
  }

  /** Splitting joined words gives the words back. */
  lemma {:induction false} SplitJoin(words: seq<string>)
    requires AreWords(words)
    ensures Split(Join(words)) == words
  {
    if words != [] {
      var first, rest := words[0], words[1..];
      assert IsWord(first);
      if rest == [] {
        SplitTakesWord(first, "", "");
        assert first + "" == first && "" + first == first;
        assert words == [first];
      } else {
        assert AreWords(rest);
        SplitTakesWord(first, " " + Join(rest), "");
        assert first + " " + Join(rest) == first + (" " + Join(rest)) && "" + first == first;
        assert (" " + Join(rest))[1..] == Join(rest);
        SplitJoin(rest);
        assert words == [first] + rest;
      }
    }
  }

  /** The words of a text are words, made of its characters. */
  lemma {:induction false} SplitWords(text: string, word: string)
    requires forall i | 0 <= i < |word| :: !IsSpace(word[i])
    ensures AreWords(SplitFrom(text, word))
    ensures !HasControl(text) && !HasControl(word) ==> forall w | w in SplitFrom(text, word) :: !HasControl(w)
    decreases |text|
  {
    if text != "" {
      var rest := text[1..];
      assert !HasControl(text) ==> !IsControl(text[0]) && !HasControl(rest) by {
        assert forall i | 0 <= i < |rest| :: rest[i] == text[i + 1];
      }
      SplitWords(rest, if IsSpace(text[0]) then "" else word + [text[0]]);
    }
  }

  function TotalBytes(words: seq<string>): nat {
    if words == [] then 0 else ByteLength(words[0]) + TotalBytes(words[1..])
  }

  lemma {:induction false} TotalConcat(a: seq<string>, b: seq<string>)
    ensures TotalBytes(a + b) == TotalBytes(a) + TotalBytes(b)
  {
    if a == [] {
      assert a + b == b;
    } else {
      TotalConcat(a[1..], b);
      assert (a + b)[0] == a[0] && (a + b)[1..] == a[1..] + b;
    }
  }

  lemma {:induction false} JoinLength(words: seq<string>)
    ensures ByteLength(Join(words)) == if words == [] then 0 else TotalBytes(words) + |words| - 1
  {
    if |words| == 1 {
      assert words[1..] == [];
    } else if |words| > 1 {
      JoinLength(words[1..]);
      ByteLengthConcat(words[0] + " ", Join(words[1..]));
      ByteLengthConcat(words[0], " ");
      assert " "[1..] == "";
    }
  }

  /** A text is at least as long as its words with one space between them. */
  lemma {:induction false} SplitLength(text: string, word: string)
    ensures var words := SplitFrom(text, word);
      words != [] ==> TotalBytes(words) + |words| - 1 <= ByteLength(word) + ByteLength(text)
    decreases |text|
  {
    if text == "" {
      assert [word][1..] == [];
    } else if IsSpace(text[0]) {
      SplitLength(text[1..], "");
      TotalConcat(WordOrNone(word), SplitFrom(text[1..], ""));
      assert [word][1..] == [];
    } else {
      SplitLength(text[1..], word + [text[0]]);
      ByteLengthConcat(word, [text[0]]);
      assert [text[0]][1..] == "";
    }
  }

  // ----- Parsing -----

  predicate IsRedirect(token: string) {
    token == "<" || token == ">"
  }

  /** The first redirection at or after `from`, or the end. */
  function FirstRedirect(tokens: seq<string>, from: nat): (end: nat)
    requires from <= |tokens|
    ensures from <= end <= |tokens| && (end < |tokens| ==> IsRedirect(tokens[end]))
    ensures forall i | from <= i < end :: !IsRedirect(tokens[i])
    decreases |tokens| - from
  {
    if from == |tokens| || IsRedirect(tokens[from]) then from else FirstRedirect(tokens, from + 1)
  }

  predicate IsRun(tokens: seq<string>) {
    |tokens| >= 2 && tokens[0] == "cargo" && tokens[1] == "run"
  }

  predicate IsRelease(tokens: seq<string>) {
    |tokens| > 2 && tokens[2] == "--release"
  }

  /** Where the options of a run end. */
  function OptionsEnd(tokens: seq<string>): nat {
    if IsRelease(tokens) then 3 else 2
  }

  predicate HasArguments(tokens: seq<string>) {
    |tokens| > OptionsEnd(tokens) && tokens[OptionsEnd(tokens)] == "--"
  }

  datatype Range = Range(start: nat, end: nat)

  /** The positions of a run's program arguments. */
  function RunArguments(tokens: seq<string>): (r: Range)
    ensures r.start <= r.end <= |tokens|
  {
    if !IsRun(tokens) || !HasArguments(tokens) then Range(0, 0)
    else
      var start := OptionsEnd(tokens) + 1;
      Range(start, FirstRedirect(tokens, start))
  }

  /**
   * A position is a program argument when the command runs a program, its `--` comes right after the options,
   * and no token from there up to it is a redirection.
   */
  predicate IsArgument(tokens: seq<string>, i: nat) {
    && IsRun(tokens) && i < |tokens|
    && exists s | 2 <= s < i ::
         && tokens[s] == "--" && (s == 2 || (s == 3 && tokens[2] == "--release"))
         && forall j | s < j <= i :: !IsRedirect(tokens[j])
  }

  /** The pre-scan finds exactly the program arguments. */
  lemma {:induction false} RunArgumentsExact(tokens: seq<string>, i: nat)
    ensures RunArguments(tokens).start <= i < RunArguments(tokens).end <==> IsArgument(tokens, i)
  {
    if IsRun(tokens) && HasArguments(tokens) {
      if RunArguments(tokens).start <= i < RunArguments(tokens).end {
        assert tokens[OptionsEnd(tokens)] == "--";
      }
    }
  }

  /** No refused character inside the arguments, and none a shell would interpret outside them. */
  predicate Screened(tokens: seq<string>, arguments: Range) {
    forall i | 0 <= i < |tokens| ::
      !(if arguments.start <= i < arguments.end then HasRefused(tokens[i]) else HasShell(tokens[i]))
  }

  function ActionOf(g: Words, tokens: seq<string>): Option<Action> {
    if tokens == ["cargo", "build"] then Some(Build)
    else if tokens == ["cargo", "check"] then Some(Check)
    else if |tokens| >= 2 && tokens[0] == "cargo" && tokens[1] == "test" && g.testTail(tokens[2..]) then Some(Test)
    else if tokens == ["cargo", "clippy"] then Some(Clippy)
    else if tokens == ["cargo", "doc"] then Some(Doc)
    else if |tokens| == 3 && tokens[0] == "cargo" && tokens[1] == "add" && g.dependency(tokens[2]) then Some(Add)
    else if |tokens| == 3 && tokens[0] == "cargo" && tokens[1] == "remove" && g.name(tokens[2]) then Some(Remove)
    else if tokens == ["cargo", "update"] then Some(Update)
    else if IsRun(tokens) then Some(Run)
    else None
  }

  predicate IsValidArgument(argument: string) {
    argument != "" && ByteLength(argument) <= MAX_TEST_CASE_ARG_BYTES && !HasControl(argument)
  }

  predicate AreValidArguments(args: seq<string>) {
    && |args| <= MAX_TEST_CASE_ARGS && (forall a | a in args :: IsValidArgument(a))
    && TotalBytes(args) <= MAX_TEST_CASE_ARGS_FILE_BYTES
  }

  predicate HasAngle(s: string) {
    '<' in s || '>' in s
  }

  datatype Redirects = Redirects(stdin: Option<string>, stdout: Option<string>)

  /** Adds one redirection; None when that direction was given before. */
  function Redirected(r: Redirects, redirect: string, path: string): Option<Redirects> {
    if redirect == "<" then (if r.stdin.Some? then None else Some(r.(stdin := Some(path))))
    else (if r.stdout.Some? then None else Some(r.(stdout := Some(path))))
  }

  predicate IsTarget(g: Words, redirect: string, value: string) {
    IsRedirect(redirect) && !IsRedirect(value) && value != "--release" && !HasAngle(value) && g.path(value)
  }

  function ParsedRedirects(g: Words, tokens: seq<string>, r: Redirects): Option<Redirects>
    decreases |tokens|
  {
    if tokens == [] then Some(r)
    else if |tokens| == 1 || !IsTarget(g, tokens[0], tokens[1]) then None
    else match Redirected(r, tokens[0], tokens[1])
      case None => None
      case Some(next) => ParsedRedirects(g, tokens[2..], next)
  }

  function RunArgv(release: bool): seq<string> {
    if release then ["cargo", "run", "--release"] else ["cargo", "run"]
  }

  /** Where the redirections of a run start: after its arguments, or after its options. */
  function RedirectsStart(tokens: seq<string>): (n: nat)
    requires IsRun(tokens)
    ensures n <= |tokens|
  {
    if HasArguments(tokens) then RunArguments(tokens).end else OptionsEnd(tokens)
  }

  function ArgumentsOf(tokens: seq<string>): seq<string> {
    tokens[RunArguments(tokens).start..RunArguments(tokens).end]
  }

  /** Arguments are given exactly after `--`, are not redirections in disguise, and obey the bounds. */
  predicate ArgumentsAccepted(tokens: seq<string>) {
    HasArguments(tokens) ==>
      && ArgumentsOf(tokens) != [] && AreValidArguments(ArgumentsOf(tokens))
      && forall a | a in ArgumentsOf(tokens) :: !HasAngle(a)
  }

  function ParsedRun(g: Words, tokens: seq<string>): Option<ConsoleCommand>
    requires IsRun(tokens)
  {
    if !ArgumentsAccepted(tokens) then None
    else match ParsedRedirects(g, tokens[RedirectsStart(tokens)..], Redirects(None, None))
      case None => None
      case Some(r) =>
        if r.stdin == r.stdout && r.stdin.Some? then None
        else Some(ConsoleCommand(Run, RunArgv(IsRelease(tokens)), ArgumentsOf(tokens), r.stdin, r.stdout))
  }

  function ParsedTokens(g: Words, tokens: seq<string>): Option<ConsoleCommand> {
    if !Screened(tokens, RunArguments(tokens)) then None
    else match ActionOf(g, tokens)
      case None => None
      case Some(Run) => ParsedRun(g, tokens)
      case Some(action) => Some(ConsoleCommand(action, tokens, [], None, None))
  }

  predicate IsBounded(input: string) {
    input != "" && ByteLength(input) <= MAX_INPUT_BYTES && !HasControl(input)
  }

  function Parsed(g: Words, input: string): Option<ConsoleCommand> {
    if !IsBounded(input) then None else ParsedTokens(g, Split(input))
  }

  // ----- The parser -----

  method IsScreened(tokens: seq<string>, arguments: Range) returns (ok: bool)
    ensures ok <==> Screened(tokens, arguments)
  {
    for index := 0 to |tokens|
      invariant forall i | 0 <= i < index ::
                  !(if arguments.start <= i < arguments.end then HasRefused(tokens[i]) else HasShell(tokens[i]))
    {
      var refused := if arguments.start <= index < arguments.end then HasRefused(tokens[index])
          else HasShell(tokens[index]);
      if refused {
        return false;
      }
    }
    return true;
  }

  /** Takes arguments up to the first redirection; None when one of them is refused. */
  method TakeArguments(tokens: seq<string>, start: nat) returns (args: Option<seq<string>>, index: nat)
    requires start <= |tokens|
    ensures var end := FirstRedirect(tokens, start);
      if forall a | a in tokens[start..end] :: IsValidArgument(a) && !HasAngle(a)
      then args == Some(tokens[start..end]) && index == end else args == None
  {
    var taken := [];
    index := start;
    while index < |tokens| && !IsRedirect(tokens[index])
      invariant start <= index <= |tokens| && taken == tokens[start..index]
      invariant FirstRedirect(tokens, index) == FirstRedirect(tokens, start)
      invariant forall a | a in taken :: IsValidArgument(a) && !HasAngle(a)
    {
      var argument := tokens[index];
      if HasAngle(argument) || !IsValidArgument(argument) {
        assert argument == tokens[start..FirstRedirect(tokens, start)][index - start];
        return None, index;
      }
      assert tokens[start..index + 1] == tokens[start..index] + [argument];
      taken := taken + [argument];
      index := index + 1;
    }
    return Some(taken), index;
  }

  method TakeRedirects(g: Words, tokens: seq<string>, start: nat) returns (r: Option<Redirects>)
    requires start <= |tokens|
    ensures r == ParsedRedirects(g, tokens[start..], Redirects(None, None))
  {
    var redirects := Redirects(None, None);
    var index := start;
    while index < |tokens|
      invariant start <= index <= |tokens|
      invariant ParsedRedirects(g, tokens[index..], redirects)
              == ParsedRedirects(g, tokens[start..], Redirects(None, None))
    {
      ghost var rest := tokens[index..];
      if index + 1 == |tokens| || !IsTarget(g, tokens[index], tokens[index + 1]) {
        return None;
      }
      var next := Redirected(redirects, tokens[index], tokens[index + 1]);
      if next.None? {
        return None;
      }
      assert rest[0] == tokens[index] && rest[1] == tokens[index + 1] && rest[2..] == tokens[index + 2..];
      redirects := next.value;
      index := index + 2;
    }
    return Some(redirects);
  }

  method ParseRun(g: Words, tokens: seq<string>) returns (r: Option<ConsoleCommand>)
    requires IsRun(tokens)
    ensures r == ParsedRun(g, tokens)
  {
    var index := 2;
    var release := |tokens| > index && tokens[index] == "--release";
    if release {
      index := index + 1;
    }
    var args: seq<string> := [];
    if |tokens| > index && tokens[index] == "--" {
      var taken;
      taken, index := TakeArguments(tokens, index + 1);
      if taken.None? || taken.value == [] || !AreValidArguments(taken.value) {
        return None;
      }
      args := taken.value;
    }
    var redirects := TakeRedirects(g, tokens, index);
    if redirects.None? || (redirects.value.stdin == redirects.value.stdout && redirects.value.stdin.Some?) {
      return None;
    }
    return Some(ConsoleCommand(Run, RunArgv(release), args, redirects.value.stdin, redirects.value.stdout));
  }

  /** Parses one console line. */
  method ParseConsoleCommand(g: Words, input: string) returns (r: Option<ConsoleCommand>)
    ensures r == Parsed(g, input)
  {
    if !IsBounded(input) {
      return None;
    }
    var tokens := Split(input);
    var screened := IsScreened(tokens, RunArguments(tokens));
    if !screened {
      return None;
    }
    var action := ActionOf(g, tokens);
    if action.None? {
      return None;
    }
    if action.value != Run {
      return Some(ConsoleCommand(action.value, tokens, [], None, None));
    }
    r := ParseRun(g, tokens);
  }

  // ----- Preparing -----

  /** The validity test of a prepared command that runs in the workspace. */
  predicate Prepares(g: Words, c: ConsoleCommand) {
    && (match c.action
        case Build => c.argv == ["cargo", "build"]
        case Check => c.argv == ["cargo", "check"]
        case Test => |c.argv| >= 2 && c.argv[0] == "cargo" && c.argv[1] == "test" && g.testTail(c.argv[2..])
        case Clippy => c.argv == ["cargo", "clippy"]
        case Run => c.argv == ["cargo", "run"] || c.argv == ["cargo", "run", "--release"]
        case Format => false
        case Doc => c.argv == ["cargo", "doc"]
        case Add => |c.argv| == 3 && c.argv[0] == "cargo" && c.argv[1] == "add" && g.dependency(c.argv[2])
        case Remove => |c.argv| == 3 && c.argv[0] == "cargo" && c.argv[1] == "remove" && g.name(c.argv[2])
        case Update => c.argv == ["cargo", "update"])
    && (c.action != Run ==> c.stdin.None? && c.stdout.None? && c.args == [])
    && AreValidArguments(c.args)
  }

  /** Whatever the parser accepts can be prepared. */
  lemma {:induction false} ParsedPrepares(g: Words, input: string)
    requires Parsed(g, input).Some?
    ensures Prepares(g, Parsed(g, input).value)
  {
  }

  // ----- Rendering -----

  function Target(redirect: string, path: Option<string>): seq<string> {
    match path
    case None => []
    case Some(p) => [redirect, p]
  }

  function ArgumentTokens(args: seq<string>): seq<string> {
    if args == [] then [] else ["--"] + args
  }

  /** The tokens of a command, input redirection first. */
  function Tokens(c: ConsoleCommand): seq<string> {
    c.argv + ArgumentTokens(c.args) + (Target("<", c.stdin) + Target(">", c.stdout))
  }

  function Rendered(c: ConsoleCommand): string {
    Join(Tokens(c))
  }

  lemma {:induction false} JoinClean(words: seq<string>)
    requires forall w | w in words :: !HasControl(w)
    ensures !HasControl(Join(words))
  {
    if |words| > 1 {
      JoinClean(words[1..]);
      var first, rest := words[0], Join(words[1..]);
      assert first in words;
      forall i | 0 <= i < |Join(words)|
        ensures !IsControl(Join(words)[i])
      {
        if i < |first| {
          assert Join(words)[i] == first[i] && !IsControl(first[i]);
        } else if i > |first| {
          assert Join(words)[i] == rest[i - |first| - 1] && !IsControl(rest[i - |first| - 1]);
        }
      }
    }
  }

  /** Words that are clean and short enough parse, joined, as those words. */
  lemma {:induction false} ParsesJoined(g: Words, words: seq<string>)
    requires words != [] && AreWords(words) && (forall w | w in words :: !HasControl(w))
    requires TotalBytes(words) + |words| - 1 <= MAX_INPUT_BYTES
    ensures Parsed(g, Join(words)) == ParsedTokens(g, words)
  {
    SplitJoin(words);
    JoinLength(words);
    JoinClean(words);
    assert IsWord(words[0]);
  }

  lemma {:induction false} BoundedWords(input: string)
    requires IsBounded(input)
    ensures AreWords(Split(input)) && forall w | w in Split(input) :: !HasControl(w)
    ensures Split(input) != [] ==> TotalBytes(Split(input)) + |Split(input)| - 1 <= MAX_INPUT_BYTES
  {
    SplitWords(input, "");
    SplitLength(input, "");
  }

  // ----- Redirections in either order -----

  /** Accepted redirections are those of a command, in one order or the other. */
  lemma {:induction false} RedirectsShape(g: Words, tokens: seq<string>, r: Redirects)
    requires ParsedRedirects(g, tokens, Redirects(None, None)) == Some(r)
    ensures tokens == Target("<", r.stdin) + Target(">", r.stdout)
            || tokens == Target(">", r.stdout) + Target("<", r.stdin)
    ensures r.stdin.Some? ==> IsTarget(g, "<", r.stdin.value)
    ensures r.stdout.Some? ==> IsTarget(g, ">", r.stdout.value)
  {
    if tokens != [] {
      var first := Redirected(Redirects(None, None), tokens[0], tokens[1]).value;
      assert tokens == [tokens[0], tokens[1]] + tokens[2..];
      if tokens[2..] != [] {
        OneMoreRedirect(g, tokens[2..], first, r);
      }
    }
  }

  lemma {:induction false} OneMoreRedirect(g: Words, tokens: seq<string>, first: Redirects, r: Redirects)
    requires tokens != [] && ParsedRedirects(g, tokens, first) == Some(r) && first.stdin.Some? != first.stdout.Some?
    ensures tokens == if first.stdin.Some? then Target(">", r.stdout) else Target("<", r.stdin)
    ensures if first.stdin.Some? then r.stdin == first.stdin && r.stdout.Some? && IsTarget(g, ">", r.stdout.value)
            else r.stdout == first.stdout && r.stdin.Some? && IsTarget(g, "<", r.stdin.value)
  {
    assert tokens == [tokens[0], tokens[1]] + tokens[2..];
    BothGiven(g, tokens[2..], Redirected(first, tokens[0], tokens[1]).value);
  }

  /** Once both directions are given, nothing more is accepted. */
  lemma {:induction false} BothGiven(g: Words, tokens: seq<string>, r: Redirects)
    requires r.stdin.Some? && r.stdout.Some?
    ensures ParsedRedirects(g, tokens, r) == if tokens == [] then Some(r) else None
  {
  }

  lemma {:induction false} RedirectsParse(g: Words, r: Redirects)
    requires r.stdin.Some? ==> IsTarget(g, "<", r.stdin.value)
    requires r.stdout.Some? ==> IsTarget(g, ">", r.stdout.value)
    ensures ParsedRedirects(g, Target("<", r.stdin) + Target(">", r.stdout), Redirects(None, None)) == Some(r)
  {
    var tokens, out := Target("<", r.stdin) + Target(">", r.stdout), Target(">", r.stdout);
    if r.stdin.Some? {
      assert tokens[2..] == out;
      if r.stdout.Some? {
        assert out[2..] == [];
        assert ParsedRedirects(g, out[2..], r) == Some(r);
        assert ParsedRedirects(g, out, Redirects(r.stdin, None)) == Some(r);
      }
    } else if r.stdout.Some? {
      assert tokens == out && out[2..] == [];
    }
  }

  /** Either order holds the same words. */
  lemma {:induction false} SwappedRedirects(head: seq<string>, a: seq<string>, b: seq<string>)
    ensures |head + (a + b)| == |head + (b + a)| && TotalBytes(head + (a + b)) == TotalBytes(head + (b + a))
    ensures forall w :: w in head + (a + b) <==> w in head + (b + a)
  {
    TotalConcat(head, a + b);
    TotalConcat(head, b + a);
    TotalConcat(a, b);
    TotalConcat(b, a);
  }

  // ----- Round trip -----

  /** Tokens that agree up to the redirections, with redirections next or nothing. */
  predicate SameHead(t: seq<string>, t': seq<string>) {
    && IsRun(t) && RedirectsStart(t) <= |t'| && t[..RedirectsStart(t)] == t'[..RedirectsStart(t)]
    && (|t'| > RedirectsStart(t) ==> IsRedirect(t'[RedirectsStart(t)]))
  }

  lemma {:induction false} FirstRedirectAt(tokens: seq<string>, from: nat, end: nat)
    requires from <= end <= |tokens| && (end < |tokens| ==> IsRedirect(tokens[end]))
    requires forall i | from <= i < end :: !IsRedirect(tokens[i])
    ensures FirstRedirect(tokens, from) == end
    decreases end - from
  {
    if from < end {
      FirstRedirectAt(tokens, from + 1, end);
    }
  }

  lemma {:induction false} HeadDetermines(t: seq<string>, t': seq<string>)
    requires SameHead(t, t')
    ensures IsRun(t') && IsRelease(t') == IsRelease(t) && HasArguments(t') == HasArguments(t)
    ensures RunArguments(t') == RunArguments(t) && RedirectsStart(t') == RedirectsStart(t)
            && ArgumentsOf(t') == ArgumentsOf(t)
  {
    var n := RedirectsStart(t);
    assert forall i | 0 <= i < n :: t[i] == t[..n][i] && t'[i] == t'[..n][i];
    if HasArguments(t) {
      FirstRedirectAt(t', OptionsEnd(t) + 1, n);
      var r := RunArguments(t);
      assert t[r.start..r.end] == t[..n][r.start..r.end] && t'[r.start..r.end] == t'[..n][r.start..r.end];
    }
  }

  lemma {:induction false} HeadIsArgv(t: seq<string>, argv: seq<string>, args: seq<string>)
    requires IsRun(t) && ArgumentsAccepted(t) && argv == RunArgv(IsRelease(t)) && args == ArgumentsOf(t)
    ensures t[..RedirectsStart(t)] == argv + ArgumentTokens(args)
  {
    var n, o := RedirectsStart(t), OptionsEnd(t);
    assert t[..o] == argv;
    if HasArguments(t) {
      assert t[..n] == t[..o] + [t[o]] + t[o + 1..n];
      assert argv + ["--"] + args == argv + (["--"] + args);
    }
  }

  /** The same tokens with the redirections in canonical order are screened alike. */
  lemma {:induction false} ScreenedAlike(t: seq<string>, t': seq<string>)
    requires SameHead(t, t') && Screened(t, RunArguments(t))
    requires forall w | w in t'[RedirectsStart(t)..] :: w in t[RedirectsStart(t)..]
    ensures Screened(t', RunArguments(t'))
  {
    HeadDetermines(t, t');
    var n, r := RedirectsStart(t), RunArguments(t);
    forall i | 0 <= i < |t'|
      ensures !(if r.start <= i < r.end then HasRefused(t'[i]) else HasShell(t'[i]))
    {
      if i < n {
        assert t'[i] == t'[..n][i] == t[..n][i] == t[i];
      } else {
        assert t'[i] == t'[n..][i - n] && t'[n..][i - n] in t'[n..];
        assert t'[i] in t[n..];
        var j :| 0 <= j < |t[n..]| && t[n..][j] == t'[i];
        assert t[n + j] == t'[i];
      }
    }
  }

  lemma {:induction false} ParsesAsRun(g: Words, t: seq<string>)
    requires IsRun(t)
    ensures ParsedTokens(g, t) == if Screened(t, RunArguments(t)) then ParsedRun(g, t) else None
  {
  }

  /** A run with the same head and redirections that mean the same is the same command. */
  lemma {:induction false} RunReparses(g: Words, t: seq<string>, t': seq<string>, c: ConsoleCommand)
    requires IsRun(t) && ParsedTokens(g, t) == Some(c) && SameHead(t, t')
    requires forall w | w in t'[RedirectsStart(t)..] :: w in t[RedirectsStart(t)..]
    requires ParsedRedirects(g, t'[RedirectsStart(t)..], Redirects(None, None)) == Some(Redirects(c.stdin, c.stdout))
    ensures ParsedTokens(g, t') == Some(c)
  {
    ParsesAsRun(g, t);
    HeadDetermines(t, t');
    ParsesAsRun(g, t');
    ScreenedAlike(t, t');
  }

  /** An accepted run: its head is the command's, and its redirections are the command's in some order. */
  lemma {:induction false} RunShape(g: Words, t: seq<string>, c: ConsoleCommand)
    requires IsRun(t) && ParsedTokens(g, t) == Some(c)
    ensures t[..RedirectsStart(t)] == c.argv + ArgumentTokens(c.args)
    ensures ParsedRedirects(g, t[RedirectsStart(t)..], Redirects(None, None)) == Some(Redirects(c.stdin, c.stdout))
  {
    ParsesAsRun(g, t);
    HeadIsArgv(t, c.argv, c.args);
  }

  lemma {:induction false} SameWords(t: seq<string>, t': seq<string>, head: seq<string>, a: seq<string>, b: seq<string>)
    requires t' == head + (a + b) && (t == head + (a + b) || t == head + (b + a))
    ensures |t'| == |t| && TotalBytes(t') == TotalBytes(t) && (forall w :: w in t' <==> w in t)
    ensures forall w | w in t'[|head|..] :: w in t[|head|..]
  {
    SwappedRedirects(head, a, b);
    assert t'[|head|..] == a + b && (t[|head|..] == a + b || t[|head|..] == b + a);
  }

  lemma {:induction false} CanonicalHead(t: seq<string>, t': seq<string>, head: seq<string>, tail: seq<string>)
    requires IsRun(t) && t[..RedirectsStart(t)] == head && t' == head + tail && (tail != [] ==> IsRedirect(tail[0]))
    ensures SameHead(t, t') && t'[RedirectsStart(t)..] == tail
  {
  }

  /** An accepted run is its head and its redirections in one order or the other, and they parse in canonical order. */
  lemma {:induction false} RunSplits(g: Words, t: seq<string>, c: ConsoleCommand, head: seq<string>, a: seq<string>,
                                     b: seq<string>)
    requires IsRun(t) && ParsedTokens(g, t) == Some(c)
    requires head == c.argv + ArgumentTokens(c.args) && a == Target("<", c.stdin) && b == Target(">", c.stdout)
    ensures t[..RedirectsStart(t)] == head && (t == head + (a + b) || t == head + (b + a))
  {
    var n := RedirectsStart(t);
    RunShape(g, t, c);
    RedirectsShape(g, t[n..], Redirects(c.stdin, c.stdout));
    TwoParts(t, n, a + b, b + a);
  }

  lemma {:induction false} TwoParts(t: seq<string>, n: nat, one: seq<string>, other: seq<string>)
    requires n <= |t| && (t[n..] == one || t[n..] == other)
    ensures t == t[..n] + one || t == t[..n] + other
  {
    assert t == t[..n] + t[n..];
  }

  lemma {:induction false} RunRedirects(g: Words, t: seq<string>, c: ConsoleCommand, a: seq<string>, b: seq<string>)
    requires IsRun(t) && ParsedTokens(g, t) == Some(c)
    requires a == Target("<", c.stdin) && b == Target(">", c.stdout)
    ensures ParsedRedirects(g, a + b, Redirects(None, None)) == Some(Redirects(c.stdin, c.stdout))
    ensures a + b != [] ==> IsRedirect((a + b)[0])
  {
    RunShape(g, t, c);
    RedirectsShape(g, t[RedirectsStart(t)..], Redirects(c.stdin, c.stdout));
    RedirectsParse(g, Redirects(c.stdin, c.stdout));
  }

  lemma {:induction false} RunRoundTrip(g: Words, t: seq<string>, t': seq<string>, c: ConsoleCommand)
    requires IsRun(t) && ParsedTokens(g, t) == Some(c) && t' == Tokens(c)
    ensures ParsedTokens(g, t') == Some(c)
    ensures |t'| == |t| && TotalBytes(t') == TotalBytes(t) && forall w :: w in t' <==> w in t
  {
    var head, a, b := c.argv + ArgumentTokens(c.args), Target("<", c.stdin), Target(">", c.stdout);
    RunSplits(g, t, c, head, a, b);
    RunRedirects(g, t, c, a, b);
    SameWords(t, t', head, a, b);
    CanonicalHead(t, t', head, a + b);
    RunReparses(g, t, t', c);
  }

  /**
   * Rendering an accepted command canonically and parsing that again gives the same command, whatever
   * the spacing and the order of the redirections were.
   */
  lemma {:induction false} RoundTrip(g: Words, input: string)
    requires Parsed(g, input).Some?
    ensures Parsed(g, Rendered(Parsed(g, input).value)) == Parsed(g, input)
  {
    var t, c := Split(input), Parsed(g, input).value;
    BoundedWords(input);
    TokensParse(g, t, c, Tokens(c));
    ParsesJoined(g, Tokens(c));
  }

  /** The canonical tokens of an accepted command parse to it, and are its tokens in some order. */
  lemma {:induction false} TokensParse(g: Words, t: seq<string>, c: ConsoleCommand, t': seq<string>)
    requires ParsedTokens(g, t) == Some(c) && t' == Tokens(c)
    ensures ParsedTokens(g, t') == Some(c)
    ensures |t'| == |t| && TotalBytes(t') == TotalBytes(t) && forall w :: w in t' <==> w in t
  {
    if c.action == Run {
      RunRoundTrip(g, t, t', c);
    } else {
      assert Tokens(c) == t;
    }
  }

  // ----- Which lines are commands -----

  predicate AllSpaces(gap: string) {
    forall i | 0 <= i < |gap| :: IsSpace(gap[i])
  }

  /** The words with the gaps before, between and after them. */
  function Laid(words: seq<string>, gaps: seq<string>): string
    requires |gaps| == |words| + 1
  {
    if words == [] then gaps[0] else gaps[0] + words[0] + Laid(words[1..], gaps[1..])
  }

  /** Gaps of spaces, of which only the first and the last may be empty. */
  predicate AreGaps(gaps: seq<string>, first: bool) {
    && (forall i | 0 <= i < |gaps| :: AllSpaces(gaps[i]))
    && (forall i | 0 <= i < |gaps| - 1 :: i > 0 || !first ==> gaps[i] != "")
  }

  lemma {:induction false} SplitSkipsGap(gap: string, rest: string)
    requires AllSpaces(gap)
    ensures SplitFrom(gap + rest, "") == SplitFrom(rest, "")
    decreases |gap|
  {
    if gap == "" {
      assert gap + rest == rest;
    } else {
      assert (gap + rest)[0] == gap[0] && (gap + rest)[1..] == gap[1..] + rest;
      SplitSkipsGap(gap[1..], rest);
    }
  }

  lemma {:induction false} SplitEndsWord(word: string, gap: string, rest: string)
    requires IsWord(word) && AllSpaces(gap) && (gap == "" ==> rest == "")
    ensures SplitFrom(word + (gap + rest), "") == [word] + SplitFrom(rest, "")
  {
    SplitTakesWord(word, gap + rest, "");
    assert "" + word == word;
    if gap == "" {
      assert gap + rest == "" && SplitFrom(rest, "") == [] && [word] + [] == [word];
    } else {
      assert (gap + rest)[0] == gap[0] && (gap + rest)[1..] == gap[1..] + rest;
      SplitSkipsGap(gap[1..], rest);
    }
  }

  /** A text laid out with gaps splits into its words. */
  lemma {:induction false} LaidSplits(words: seq<string>, gaps: seq<string>)
    requires |gaps| == |words| + 1 && AreWords(words) && AreGaps(gaps, true)
    ensures Split(Laid(words, gaps)) == words
    decreases |words|
  {
    if words == [] {
      SplitSkipsGap(gaps[0], "");
      assert gaps[0] + "" == gaps[0];
    } else {
      var word, rest, after := words[0], words[1..], gaps[1..];
      assert word in words && forall w | w in rest :: w in words;
      assert forall i | 0 <= i < |after| :: after[i] == gaps[i + 1];
      var open := after[0 := ""];
      assert AreGaps(open, true);
      LaidOpen(rest, after);
      LaidSplits(rest, open);
      assert gaps[0] + word + Laid(rest, after) == gaps[0] + (word + (after[0] + Laid(rest, open)));
      SplitSkipsGap(gaps[0], word + (after[0] + Laid(rest, open)));
      assert after[0] == "" ==> rest == [];
      assert rest == [] ==> Laid(rest, open) == "";
      SplitEndsWord(word, after[0], Laid(rest, open));
      assert words == [word] + rest;
    }
  }

  /** The first gap stands in front. */
  lemma {:induction false} LaidOpen(words: seq<string>, gaps: seq<string>)
    requires |gaps| == |words| + 1
    ensures Laid(words, gaps) == gaps[0] + Laid(words, gaps[0 := ""])
  {
    var open := gaps[0 := ""];
    if words == [] {
      assert gaps[0] + "" == gaps[0];
    } else {
      assert open[1..] == gaps[1..];
      assert "" + words[0] == words[0];
      assert gaps[0] + words[0] + Laid(words[1..], gaps[1..]) == gaps[0] + (words[0] + Laid(words[1..], gaps[1..]));
    }
  }

  lemma {:induction false} LaidCons(word: string, words: seq<string>, gaps: seq<string>, gap: string)
    requires |gaps| == |words| + 1
    ensures Laid([word] + words, [gap] + gaps) == gap + word + Laid(words, gaps)
  {
    assert ([word] + words)[1..] == words && ([gap] + gaps)[1..] == gaps;
  }

  /** The gaps of a text, after a word that was begun. */
  lemma {:induction false} SplitGaps(text: string, word: string) returns (gaps: seq<string>)
    requires forall i | 0 <= i < |word| :: !IsSpace(word[i])
    ensures |gaps| == |SplitFrom(text, word)| + 1 && AreGaps(gaps, true) && (word != "" ==> gaps[0] == "")
    ensures Laid(SplitFrom(text, word), gaps) == word + text
    decreases |text|
  {
    if text == "" {
      gaps := if word == "" then [""] else ["", ""];
      if word != "" {
        LaidCons(word, [], [""], "");
        assert [word] + [] == [word] && [""] + [""] == ["", ""] && "" + word + "" == word;
      }
      assert word + text == word;
    } else if IsSpace(text[0]) {
      var rest := SplitGaps(text[1..], "");
      var words := SplitFrom(text[1..], "");
      var wider := rest[0 := [text[0]] + rest[0]];
      WiderGap(words, rest, text[0]);
      assert [text[0]] + text[1..] == text && "" + text[1..] == text[1..];
      if word == "" {
        gaps := wider;
        assert [] + words == words && word + text == text;
      } else {
        gaps := [""] + wider;
        LaidCons(word, words, wider, "");
        assert "" + word == word;
        assert AreGaps(gaps, true);
      }
    } else {
      gaps := SplitGaps(text[1..], word + [text[0]]);
      assert word + [text[0]] + text[1..] == word + text;
    }
  }

  lemma {:induction false} WiderGap(words: seq<string>, gaps: seq<string>, space: char)
    requires |gaps| == |words| + 1 && AreGaps(gaps, true) && IsSpace(space)
    ensures var wider := gaps[0 := [space] + gaps[0]];
      AreGaps(wider, true) && AreGaps(wider, false) && Laid(words, wider) == [space] + Laid(words, gaps)
  {
    var wider := gaps[0 := [space] + gaps[0]];
    LaidOpen(words, gaps);
    LaidOpen(words, wider);
    assert wider[0 := ""] == gaps[0 := ""];
    assert [space] + gaps[0] + Laid(words, gaps[0 := ""]) == [space] + (gaps[0] + Laid(words, gaps[0 := ""]));
  }

  /** The words of a text are the only ones that give it when they are laid out with gaps of spaces. */
  lemma {:induction false} SplitExactly(text: string, words: seq<string>)
    ensures words == Split(text)
            <==> && AreWords(words)
                 && exists gaps :: |gaps| == |words| + 1 && AreGaps(gaps, true) && Laid(words, gaps) == text
  {
    SplitWords(text, "");
    var own := SplitGaps(text, "");
    assert "" + text == text;
    forall gaps | AreWords(words) && |gaps| == |words| + 1 && AreGaps(gaps, true) && Laid(words, gaps) == text
      ensures words == Split(text)
    {
      LaidSplits(words, gaps);
    }
  }

  /** The path of a redirection: no redirection or option itself, a path, and free of shell characters. */
  predicate TargetAllowed(g: Words, path: Option<string>) {
    path.Some? ==>
      && !IsRedirect(path.value) && path.value != "--release" && !HasAngle(path.value) && g.path(path.value)
      && !HasShell(path.value)
  }

  predicate NoShell(tokens: seq<string>) {
    forall i | 0 <= i < |tokens| :: !HasShell(tokens[i])
  }

  predicate NoneRefused(args: seq<string>) {
    forall i | 0 <= i < |args| :: !HasRefused(args[i])
  }

  /** A command that can be written at the console: one that can be prepared, without shell characters. */
  predicate Allowed(g: Words, c: ConsoleCommand) {
    && Prepares(g, c) && NoShell(c.argv) && NoneRefused(c.args)
    && TargetAllowed(g, c.stdin) && TargetAllowed(g, c.stdout)
    && (c.stdin.Some? ==> c.stdin != c.stdout)
  }

  /** The tokens of a command with its redirections in one order or the other. */
  predicate Writes(c: ConsoleCommand, tokens: seq<string>) {
    var head := c.argv + ArgumentTokens(c.args);
    || tokens == head + (Target("<", c.stdin) + Target(">", c.stdout))
    || tokens == head + (Target(">", c.stdout) + Target("<", c.stdin))
  }

  lemma {:induction false} AngleRefused(s: string)
    requires !HasRefused(s)
    ensures !HasAngle(s) && !IsRedirect(s)
  {
  }

  lemma {:induction false} SwappedParse(g: Words, r: Redirects)
    requires r.stdin.Some? ==> IsTarget(g, "<", r.stdin.value)
    requires r.stdout.Some? ==> IsTarget(g, ">", r.stdout.value)
    ensures ParsedRedirects(g, Target(">", r.stdout) + Target("<", r.stdin), Redirects(None, None)) == Some(r)
  {
    var tokens, last := Target(">", r.stdout) + Target("<", r.stdin), Target("<", r.stdin);
    if r.stdout.Some? {
      assert tokens[2..] == last;
      if r.stdin.Some? {
        assert last[2..] == [];
        assert ParsedRedirects(g, last[2..], r) == Some(r);
        assert ParsedRedirects(g, last, Redirects(None, r.stdout)) == Some(r);
      }
    } else if r.stdin.Some? {
      assert tokens == last && last[2..] == [];
    }
  }

  /** What a run's tokens start with decides where its arguments and redirections are. */
  lemma {:induction false} RunParts(c: ConsoleCommand, tokens: seq<string>, tail: seq<string>)
    requires c.argv == RunArgv(false) || c.argv == RunArgv(true)
    requires tokens == c.argv + ArgumentTokens(c.args) + tail && (tail != [] ==> IsRedirect(tail[0]))
    requires forall i | 0 <= i < |c.args| :: !IsRedirect(c.args[i])
    ensures IsRun(tokens) && RunArgv(IsRelease(tokens)) == c.argv && HasArguments(tokens) == (c.args != [])
    ensures ArgumentsOf(tokens) == c.args && RedirectsStart(tokens) == |c.argv + ArgumentTokens(c.args)|
    ensures tokens[RedirectsStart(tokens)..] == tail
  {
    hide IsRun, IsRelease, HasArguments, OptionsEnd, RunArgv, RunArguments, RedirectsStart, ArgumentsOf, FirstRedirect;
    if c.args == [] {
      assert c.argv + ArgumentTokens(c.args) == c.argv;
      PartsWithout(c.argv, tokens, tail);
    } else {
      JoinsOn(c.argv, ["--"], c.args);
      PartsWith(c.argv, c.args, tokens, tail);
    }
  }

  lemma {:induction false} JoinsOn(a: seq<string>, b: seq<string>, c: seq<string>)
    ensures a + b + c == a + (b + c)
  {
  }

  lemma {:induction false} PartsWithout(argv: seq<string>, tokens: seq<string>, tail: seq<string>)
    requires argv == RunArgv(false) || argv == RunArgv(true)
    requires tokens == argv + tail && (tail != [] ==> IsRedirect(tail[0]))
    ensures IsRun(tokens) && RunArgv(IsRelease(tokens)) == argv && !HasArguments(tokens)
    ensures ArgumentsOf(tokens) == [] && RedirectsStart(tokens) == |argv| && tokens[RedirectsStart(tokens)..] == tail
  {
    hide IsRun, IsRelease, HasArguments, OptionsEnd, RunArgv, FirstRedirect;
    RunHead(argv, tail, tokens);
  }

  lemma {:induction false} PartsWith(argv: seq<string>, args: seq<string>, tokens: seq<string>, tail: seq<string>)
    requires argv == RunArgv(false) || argv == RunArgv(true)
    requires tokens == argv + ["--"] + args + tail && (tail != [] ==> IsRedirect(tail[0]))
    requires forall i | 0 <= i < |args| :: !IsRedirect(args[i])
    ensures IsRun(tokens) && RunArgv(IsRelease(tokens)) == argv && HasArguments(tokens)
    ensures ArgumentsOf(tokens) == args && RedirectsStart(tokens) == |argv + ["--"] + args|
    ensures tokens[RedirectsStart(tokens)..] == tail
  {
    hide IsRun, IsRelease, HasArguments, OptionsEnd, RunArgv, FirstRedirect, IsRedirect;
    var rest := ["--"] + (args + tail);
    JoinsOn(argv + ["--"], args, tail);
    JoinsOn(argv, ["--"], args + tail);
    RunHead(argv, rest, tokens);
    ArgumentsBetween(tokens, argv + ["--"], args, tail);
  }

  /** The words of a run, followed by what no option can be. */
  lemma {:induction false} RunHead(argv: seq<string>, rest: seq<string>, tokens: seq<string>)
    requires argv == RunArgv(false) || argv == RunArgv(true)
    requires tokens == argv + rest && (rest != [] ==> rest[0] == "--" || IsRedirect(rest[0]))
    ensures IsRun(tokens) && RunArgv(IsRelease(tokens)) == argv && OptionsEnd(tokens) == |argv|
    ensures HasArguments(tokens) == (rest != [] && rest[0] == "--") && tokens[|argv|..] == rest
  {
    assert forall i | 0 <= i < |argv| :: tokens[i] == argv[i];
    assert rest != [] ==> tokens[|argv|] == rest[0];
  }

  lemma {:induction false} ArgumentsBetween(tokens: seq<string>, head: seq<string>, args: seq<string>,
                                            tail: seq<string>)
    requires tokens == head + args + tail && (tail != [] ==> IsRedirect(tail[0]))
    requires forall i | 0 <= i < |args| :: !IsRedirect(args[i])
    ensures FirstRedirect(tokens, |head|) == |head + args|
    ensures tokens[|head|..|head + args|] == args && tokens[|head + args|..] == tail
  {
    assert forall i | 0 <= i < |args| :: tokens[|head| + i] == args[i];
    FirstRedirectAt(tokens, |head|, |head + args|);
  }

  lemma {:induction false} NoShellConcat(a: seq<string>, b: seq<string>)
    ensures NoShell(a + b) <==> NoShell(a) && NoShell(b)
  {
    hide HasShell;
    var all := a + b;
    assert forall i | 0 <= i < |a| :: all[i] == a[i];
    assert forall i | 0 <= i < |b| :: all[|a| + i] == b[i];
  }

  /** Screening looks at the arguments in one way and at what stands before and after them in the other. */
  lemma {:induction false} ScreenedParts(tokens: seq<string>, r: Range)
    requires r.start <= r.end <= |tokens|
    ensures Screened(tokens, r)
            <==> NoShell(tokens[..r.start]) && NoneRefused(tokens[r.start..r.end]) && NoShell(tokens[r.end..])
  {
    hide HasShell, HasRefused;
    var front, middle, back := tokens[..r.start], tokens[r.start..r.end], tokens[r.end..];
    assert forall i | 0 <= i < |front| :: front[i] == tokens[i];
    assert forall i | 0 <= i < |middle| :: middle[i] == tokens[r.start + i];
    assert forall i | 0 <= i < |back| :: back[i] == tokens[r.end + i];
    forall i | 0 <= i < |tokens|
      ensures i < r.start ==> tokens[i] == front[i]
      ensures r.start <= i < r.end ==> tokens[i] == middle[i - r.start]
      ensures r.end <= i ==> tokens[i] == back[i - r.end]
    {
    }
  }

  lemma {:induction false} RunScreened(g: Words, c: ConsoleCommand, tokens: seq<string>, tail: seq<string>)
    requires IsRun(tokens) && ArgumentsOf(tokens) == c.args && HasArguments(tokens) == (c.args != [])
    requires tokens == c.argv + ArgumentTokens(c.args) + tail
    requires RedirectsStart(tokens) == |c.argv + ArgumentTokens(c.args)|
    ensures Screened(tokens, RunArguments(tokens)) <==> NoShell(c.argv) && NoneRefused(c.args) && NoShell(tail)
  {
    hide HasShell, HasRefused, FirstRedirect, NoShell, NoneRefused, Screened;
    var r, head := RunArguments(tokens), c.argv + ArgumentTokens(c.args);
    ScreenedParts(tokens, r);
    DashesPlain();
    if c.args == [] {
      assert head == c.argv && tokens[..0] == [] && tokens[0..] == tokens && tokens[0..0] == [];
      NoShellConcat(c.argv, tail);
      NothingRefused();
    } else {
      assert head == c.argv + ["--"] + c.args && r.end == |head|;
      assert tokens[r.end..] == tail && tokens[..r.start] == c.argv + ["--"];
      NoShellConcat(c.argv, ["--"]);
    }
  }

  lemma {:induction false} NothingRefused()
    ensures NoneRefused([]) && NoShell([])
  {
  }

  lemma {:induction false} DashesPlain()
    ensures NoShell(["--"]) && NoShell(["<"]) && NoShell([">"])
  {
  }

  lemma {:induction false} TargetsPlain(g: Words, c: ConsoleCommand, tail: seq<string>)
    requires || tail == Target("<", c.stdin) + Target(">", c.stdout)
             || tail == Target(">", c.stdout) + Target("<", c.stdin)
    ensures NoShell(tail)
            <==> && (c.stdin.Some? ==> !HasShell(c.stdin.value))
                 && (c.stdout.Some? ==> !HasShell(c.stdout.value))
  {
    hide HasShell;
    DashesPlain();
    NoShellConcat(Target("<", c.stdin), Target(">", c.stdout));
    NoShellConcat(Target(">", c.stdout), Target("<", c.stdin));
    TargetPlain("<", c.stdin);
    TargetPlain(">", c.stdout);
  }

  lemma {:induction false} TargetPlain(redirect: string, path: Option<string>)
    requires NoShell([redirect])
    ensures NoShell(Target(redirect, path)) <==> (path.Some? ==> !HasShell(path.value))
  {
    hide HasShell;
    assert !HasShell([redirect][0]);
    if path.Some? {
      var both := Target(redirect, path);
      assert both[0] == redirect && both[1] == path.value;
    }
  }

  // ----- Exactly the allowed commands are accepted -----

  lemma {:induction false} ArgumentsAllowed(c: ConsoleCommand, tokens: seq<string>)
    requires ArgumentsOf(tokens) == c.args && HasArguments(tokens) == (c.args != []) && NoneRefused(c.args)
    ensures ArgumentsAccepted(tokens) <==> AreValidArguments(c.args)
  {
    hide HasRefused, IsValidArgument, FirstRedirect;
    forall a | a in c.args
      ensures !HasAngle(a)
    {
      AngleRefused(a);
    }
  }

  /** A run whose tokens are laid out as those of a command is accepted as it exactly when the command is allowed. */
  lemma {:induction false} RunAccepted(g: Words, c: ConsoleCommand, tokens: seq<string>)
    requires c.action == Run && Allowed(g, c) && Writes(c, tokens)
    ensures ParsedTokens(g, tokens) == Some(c)
  {
    hide HasShell, HasRefused, FirstRedirect, IsValidArgument, Screened, NoShell, NoneRefused, ParsedRedirects,
      AreValidArguments, HasAngle;
    var a, b := Target("<", c.stdin), Target(">", c.stdout);
    var tail := if tokens == c.argv + ArgumentTokens(c.args) + (a + b) then a + b else b + a;
    ArgumentsPlain(c.args);
    RunParts(c, tokens, tail);
    RunScreened(g, c, tokens, tail);
    TargetsPlain(g, c, tail);
    ArgumentsAllowed(c, tokens);
    RedirectsParse(g, Redirects(c.stdin, c.stdout));
    SwappedParse(g, Redirects(c.stdin, c.stdout));
    ParsesAsRun(g, tokens);
  }

  lemma {:induction false} ArgumentsPlain(args: seq<string>)
    requires NoneRefused(args)
    ensures forall i | 0 <= i < |args| :: !IsRedirect(args[i])
  {
    forall i | 0 <= i < |args|
      ensures !IsRedirect(args[i])
    {
      AngleRefused(args[i]);
    }
  }

  lemma {:induction false} RunAllowed(g: Words, c: ConsoleCommand, tokens: seq<string>)
    requires IsRun(tokens) && ParsedTokens(g, tokens) == Some(c)
    ensures c.action == Run && Allowed(g, c) && Writes(c, tokens)
  {
    hide HasShell, HasRefused, FirstRedirect, IsValidArgument, Screened, NoShell, NoneRefused, ParsedRedirects,
      HasAngle, AreValidArguments;
    var a, b := Target("<", c.stdin), Target(">", c.stdout);
    ParsesAsRun(g, tokens);
    RunSplits(g, tokens, c, c.argv + ArgumentTokens(c.args), a, b);
    RunShape(g, tokens, c);
    var n := RedirectsStart(tokens);
    RedirectsShape(g, tokens[n..], Redirects(c.stdin, c.stdout));
    var tail := tokens[n..];
    assert tokens == tokens[..n] + tail;
    RunScreened(g, c, tokens, tail);
    TargetsPlain(g, c, tail);
    NoArguments(tokens);
  }

  lemma {:induction false} NoArguments(tokens: seq<string>)
    requires IsRun(tokens) && ArgumentsAccepted(tokens)
    ensures HasArguments(tokens) == (ArgumentsOf(tokens) != []) && AreValidArguments(ArgumentsOf(tokens))
  {
    hide FirstRedirect, IsValidArgument;
  }

  lemma {:induction false} OtherAccepted(g: Words, c: ConsoleCommand, tokens: seq<string>)
    requires c.action != Run
    ensures ParsedTokens(g, tokens) == Some(c) <==> Allowed(g, c) && Writes(c, tokens)
  {
    hide HasShell, HasRefused, FirstRedirect, IsValidArgument, Screened, NoShell, NoneRefused, ParsedRun, IsRedirect,
      HasAngle;
    NothingRefused();
    if ParsedTokens(g, tokens) == Some(c) {
      OtherShape(g, c, tokens);
      PlainWrites(c, tokens);
      OtherScreened(tokens);
    } else if Allowed(g, c) && Writes(c, tokens) {
      PlainWrites(c, tokens);
      OtherScreened(tokens);
    }
  }

  lemma {:induction false} OtherShape(g: Words, c: ConsoleCommand, tokens: seq<string>)
    requires c.action != Run && ParsedTokens(g, tokens) == Some(c)
    ensures !IsRun(tokens) && c == ConsoleCommand(c.action, tokens, [], None, None)
  {
    hide Screened, ArgumentsAccepted, ParsedRedirects, RunArguments;
    if IsRun(tokens) {
      ParsesAsRun(g, tokens);
    }
  }

  lemma {:induction false} PlainWrites(c: ConsoleCommand, tokens: seq<string>)
    requires c.args == [] && c.stdin.None? && c.stdout.None?
    ensures Writes(c, tokens) <==> tokens == c.argv
  {
    assert c.argv + [] + ([] + []) == c.argv;
  }

  lemma {:induction false} OtherScreened(tokens: seq<string>)
    ensures !IsRun(tokens) ==> (Screened(tokens, RunArguments(tokens)) <==> NoShell(tokens))
  {
    hide HasShell, HasRefused;
  }

  /** Tokens are a command exactly when they are its tokens, in either order of redirections, and it is allowed. */
  lemma {:induction false} TokensExactly(g: Words, tokens: seq<string>, c: ConsoleCommand)
    ensures ParsedTokens(g, tokens) == Some(c) <==> Allowed(g, c) && Writes(c, tokens)
  {
    hide Screened, ParsedRun, Prepares, NoShell, NoneRefused;
    if c.action != Run {
      OtherAccepted(g, c, tokens);
    } else {
      if Allowed(g, c) && Writes(c, tokens) {
        RunAccepted(g, c, tokens);
      }
      if ParsedTokens(g, tokens) == Some(c) {
        assert IsRun(tokens);
        RunAllowed(g, c, tokens);
      }
    }
  }

  /**
   * A console line is accepted as a command exactly when it is within its bounds, its words are the command's tokens
   * with the redirections in either order, and the command is allowed.
   */
  lemma {:induction false} ParsedExactly(g: Words, input: string, c: ConsoleCommand)
    ensures Parsed(g, input) == Some(c) <==> IsBounded(input) && Allowed(g, c) && Writes(c, Split(input))
  {
    hide ParsedTokens, Allowed, Writes, Split;
    TokensExactly(g, Split(input), c);
  }
}
