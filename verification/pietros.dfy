/** The pietrOS command interpreter (`src/terminal/pietros.ts`): the
 *  guess / cisco / terraform sub-modes, the history rule, the virtual
 *  file-system commands and the small pure commands (`flip`, `rps`, `calc`
 *  validation, `quote`). Output is reduced to a `Reply` naming what the
 *  command printed; HTML, timers and animations are not modelled. */
module PietrOS {
  import opened Wrappers
  import opened Text
  import opened FsTree
  import TerminalCore
  import State

  /** `guessGame`: the target is drawn when the game starts. */
  datatype Guess = Guess(active: bool, target: int, attempts: int)

  datatype Hand = Rock | Paper | Scissors
  datatype RpsResult = Draw | Win | Lose

  /** What a command printed, by kind. */
  datatype Reply =
    | Quiet
    | NotANumber | Correct(target: int, attempts: int) | TooLow | TooHigh
    | CiscoClosed | CiscoHelp | CiscoShow | CiscoUnknown
    | Applied | Cancelled
    | Personality(mode: string) | Cleared | Said(text: string)
    | Listing(items: seq<string>)
    | NoSuchDirectory(name: string) | FileExists(name: string)
    | NotEmpty(name: string) | NoSuchEntry(name: string)
    | Readme | Secrets | EmptyFile | NoSuchFile(name: string)
    | GuessStarted
    | TerraformUsage | TerraformInit | TerraformPlan | TerraformOther
    | CiscoConnecting
    | QuoteShown(quote: string)
    | Flipped(text: string)
    | RpsUsage | RpsPlayed(player: Hand, cpu: Hand, result: RpsResult)
    | CalcUsage | CalcInvalid | CalcConsecutive | CalcEvaluated(expr: string)
    | Opening(app: string) | AppNotFound(app: string)
    | Canned(cmd: string)
    | NotFound(cmd: string)

  /** Everything a command can read or change: the interpreter's own
   *  variables, the shared file tree and the parts of the shared state it
   *  uses. */
  datatype Session = Session(fs: Node, path: string, guess: Guess, cisco: bool, terraform: bool,
                             history: seq<string>, historyIndex: int,
                             terminal: State.TerminalState,
                             quotes: seq<string>, quoteIndex: int)

  datatype Outcome = Outcome(session: Session, reply: Reply)

  /** The inputs from outside the terminal: whether the terminal window is
   *  open, the window registry passed to `open`, and the random draw used
   *  by `guess` and `rps` (`Math.floor(Math.random() * n)` is `choice % n`). */
  datatype Env = Env(terminalWindow: bool, windows: Option<set<string>>, choice: nat)

  const Launchers: set<string> := {"about", "contact", "projects", "resume"}

  /** Commands whose only effect is output the model does not spell out
   *  (fixed text, random picks, timed animations). */
  const CannedCommands: set<string> :=
    {"help", "help-fun", "traceroute", "tracert", "dig", "curl", "docker", "version",
     "uptime", "clock", "neofetch", "ascii", "cowsay", "figlet", "8ball", "sudo", "rm",
     "exit", "pietro", "matrix", "rain", "sl", "hack", "hlx"}

  // ---------------------------------------------------------------------------
  // Arguments

  /** `args[i]`, `undefined` past the end. */
  function Arg(args: seq<string>, i: nat): Option<string>
  {
    if i < |args| then Some(args[i]) else None
  }

  /** The argument is truthy: present and not the empty string. */
  predicate Truthy(a: Option<string>)
  {
    a.Some? && a.value != ""
  }

  /** How JavaScript spells an argument used as a key or in a message. */
  function Spelled(a: Option<string>): string
  {
    if a.Some? then a.value else "undefined"
  }

  // ---------------------------------------------------------------------------
  // Sub-modes

  /** A line typed while the guessing game runs: non-numbers are rejected
   *  without counting, every number counts, only the target ends the game. */
  function GuessTurn(s: Session, input: string): (o: Outcome)
    ensures o.session == s.(guess := o.session.guess)
  {
    match ParseInt(input)
    case None => Outcome(s, NotANumber)
    case Some(g) =>
      var n := s.guess.attempts + 1;
      if g == s.guess.target then
        Outcome(s.(guess := Guess(false, s.guess.target, n)), Correct(s.guess.target, n))
      else
        Outcome(s.(guess := s.guess.(attempts := n)), if g < s.guess.target then TooLow else TooHigh)
  }

  /** A line typed in the simulated router session. */
  function CiscoTurn(s: Session, input: string): (o: Outcome)
    ensures o.session == s.(cisco := o.session.cisco)
  {
    var c := Lower(Trim(input));
    if c == "exit" || c == "quit" || c == "logout" then Outcome(s.(cisco := false), CiscoClosed)
    else if c == "?" || c == "help" then Outcome(s, CiscoHelp)
    else if StartsWith(c, "show") then Outcome(s, CiscoShow)
    else Outcome(s, CiscoUnknown)
  }

  /** The answer to the `terraform plan` question: any answer ends the mode. */
  function TerraformTurn(s: Session, input: string): Outcome
  {
    var r := Lower(Trim(input));
    Outcome(s.(terraform := false), if r == "yes" || r == "y" then Applied else Cancelled)
  }

  /** `handlePietrOSCommand(input, …)`. */
  function Handled(s: Session, input: string, env: Env): Outcome
  {
    if input == "" then Outcome(s, Quiet)
    else if s.guess.active then GuessTurn(s, input)
    else if s.cisco then CiscoTurn(s, input)
    else if s.terraform then TerraformTurn(s, input)
    else Command(s.(history := s.history + [input], historyIndex := -1), input, env)
  }

  /** The cases of the `switch (cmd)` of the standard commands. */
  datatype Verb =
    | ToCyberpunk | ToFallout | ClearScreen | WhoAmI | PrintDir | List
    | ChangeDir | MakeDir | TouchFile | RemoveDir | ShowFile
    | NoClip | OpenWindow | Calculate | StartGuess | TerraformCmd | Connect
    | ShowQuote | FlipCmd | PlayRps | Launch | CannedCmd | Unknown

  /** The case a lower-cased command word selects. */
  function VerbOf(cmd: string): (v: Verb)
    ensures v == MakeDir <==> cmd == "mkdir"
    ensures v == TouchFile <==> cmd == "touch"
    ensures v == RemoveDir <==> cmd == "rmdir"
    ensures v == ChangeDir <==> cmd == "cd"
    ensures v == TerraformCmd <==> cmd == "terraform"
    ensures v == Launch <==> cmd in Launchers
    ensures v == StartGuess <==> cmd == "guess"
    ensures v == ToCyberpunk <==> cmd == "cyberpunk"
    ensures v == ToFallout <==> cmd == "fallout"
    ensures v == Connect <==> cmd == "cisco" || cmd == "ssh"
    ensures v == OpenWindow <==> cmd == "open"
    ensures v == ShowQuote <==> cmd == "quote"
    ensures v == NoClip <==> cmd == "noclip"
    ensures v == FlipCmd <==> cmd == "flip"
  {
    if cmd == "cyberpunk" then ToCyberpunk
    else if cmd == "fallout" then ToFallout
    else if cmd == "clear" then ClearScreen
    else if cmd == "whoami" then WhoAmI
    else if cmd == "pwd" then PrintDir
    else if cmd == "ls" || cmd == "ll" then List
    else if cmd == "cd" then ChangeDir
    else if cmd == "mkdir" then MakeDir
    else if cmd == "touch" then TouchFile
    else if cmd == "rmdir" then RemoveDir
    else if cmd == "cat" then ShowFile
    else if cmd == "noclip" then NoClip
    else if cmd == "open" then OpenWindow
    else if cmd == "calc" then Calculate
    else if cmd == "guess" then StartGuess
    else if cmd == "terraform" then TerraformCmd
    else if cmd == "cisco" || cmd == "ssh" then Connect
    else if cmd == "quote" then ShowQuote
    else if cmd == "flip" then FlipCmd
    else if cmd == "rps" then PlayRps
    else if cmd in Launchers then Launch
    else if cmd in CannedCommands then CannedCmd
    else Unknown
  }

  /** The standard commands; `cmd` is the first space-separated word,
   *  lower-cased. */
  function Command(s: Session, input: string, env: Env): (o: Outcome)
    ensures o.session.history == s.history && o.session.historyIndex == s.historyIndex
    ensures o.session.quotes == s.quotes
  {
    var args := Split(input, ' ');
    var cmd := Lower(args[0]);
    Run(s, VerbOf(cmd), args, cmd, env)
  }

  /** The case `v` of the `switch`, given the words of the line. Each part
   *  of the session is changed by one kind of command only. */
  function Run(s: Session, v: Verb, args: seq<string>, cmd: string, env: Env): (o: Outcome)
    requires |args| >= 1
    ensures o.session.history == s.history && o.session.historyIndex == s.historyIndex
    ensures o.session.quotes == s.quotes
    ensures o.session.path != s.path ==> v == ChangeDir
    ensures o.session.fs != s.fs ==> v == MakeDir || v == TouchFile || v == RemoveDir
    ensures o.session.guess != s.guess ==> v == StartGuess
    ensures o.session.cisco != s.cisco ==> v == Connect
    ensures o.session.terraform != s.terraform ==> v == TerraformCmd && args[1..] != [] && args[1] == "plan"
    ensures o.session.terminal != s.terminal ==> v == ToCyberpunk || v == ToFallout
    ensures o.session.quoteIndex != s.quoteIndex ==> v == ShowQuote
  {
    match v
    case ToCyberpunk => SwitchTo(s, env.terminalWindow, "cyberpunk", "V")
    case ToFallout => SwitchTo(s, env.terminalWindow, "fallout", "VAULT_DWELLER")
    case ClearScreen => Outcome(s, Cleared)
    case WhoAmI => Outcome(s, Said("guest"))
    case PrintDir => Outcome(s, Said(s.path))
    case List => Outcome(s, Listing(ListDir(s.fs, s.path, "-a" in args)))
    case ChangeDir => Cd(s, Arg(args, 1))
    case MakeDir => Mkdir(s, Arg(args, 1))
    case TouchFile => Touch(s, Arg(args, 1))
    case RemoveDir => Rmdir(s, Arg(args, 1))
    case ShowFile => Outcome(s, Cat(s.fs, s.path, Arg(args, 1)))
    case NoClip => Outcome(s, Opening("experiments"))
    case OpenWindow => Outcome(s, Open(env.windows, Arg(args, 1)))
    case Calculate => Outcome(s, Calc(Join(args[1..], "")))
    case StartGuess => Outcome(s.(guess := Guess(true, env.choice % 100 + 1, 0)), GuessStarted)
    case TerraformCmd => Terraform(s, Arg(args, 1))
    case Connect => Outcome(s.(cisco := true), CiscoConnecting)
    case ShowQuote => Quote(s)
    case FlipCmd => Outcome(s, Flipped(Flip(FlipText(args))))
    case PlayRps => Outcome(s, Rps(Arg(args, 1), env.choice))
    case Launch => Outcome(s, Opening(cmd))
    case CannedCmd => Outcome(s, Canned(cmd))
    case Unknown => Outcome(s, NotFound(cmd))
  }

  /** `cyberpunk` / `fallout`: the personality changes only when the
   *  terminal window exists. */
  function SwitchTo(s: Session, terminalWindow: bool, mode: string, user: string): (o: Outcome)
    ensures o.session == s.(terminal := o.session.terminal)
  {
    if terminalWindow then
      Outcome(s.(terminal := s.terminal.(mode := mode, user := user)), Personality(mode))
    else Outcome(s, Quiet)
  }

  /** `terraform …`: only `plan` enters the confirmation mode. */
  function Terraform(s: Session, a: Option<string>): (o: Outcome)
    ensures o.session == s.(terraform := o.session.terraform)
    ensures o.session.terraform != s.terraform ==> a == Some("plan")
  {
    if !Truthy(a) then Outcome(s, TerraformUsage)
    else if a.value == "init" then Outcome(s, TerraformInit)
    else if a.value == "plan" then Outcome(s.(terraform := true), TerraformPlan)
    else Outcome(s, TerraformOther)
  }

  /** `quote`: shows the current quote and advances the index, back to 0
   *  at the end. The reshuffle in the wrap-around branch shuffles a fresh
   *  copy whose result is dropped, so the quote list itself never changes. */
  function Quote(s: Session): (o: Outcome)
    ensures o.session == s.(quoteIndex := o.session.quoteIndex)
  {
    var q := TerminalCore.At(s.quotes, s.quoteIndex);
    var i := s.quoteIndex + 1;
    Outcome(s.(quoteIndex := if i >= |s.quotes| then 0 else i), QuoteShown(q))
  }

  // ---------------------------------------------------------------------------
  // The file-system commands

  /** `getDirObj()`: the entries of the directory the path resolves to. */
  function DirAt(fs: Node, path: string): (r: Option<Entries>)
    ensures r.Some? <==> TerminalCore.Resolve(fs, TerminalCore.Parts(path)).Some?
                         && TerminalCore.Resolve(fs, TerminalCore.Parts(path)).value.Dir?
    ensures r.Some? ==> TerminalCore.Resolve(fs, TerminalCore.Parts(path)) == Some(Dir(r.value))
  {
    match TerminalCore.Resolve(fs, TerminalCore.Parts(path))
    case Some(n) => if n.Dir? then Some(n.entries) else None
    case None => None
  }

  /** The name `ls` shows for an entry: directories carry a trailing "/". */
  function Label(e: (string, Node)): (r: string)
    ensures r == e.0 + (if e.1.Dir? then "/" else "")
  {
    if e.1.Dir? then e.0 + "/" else e.0
  }

  predicate Visible(name: string, showHidden: bool)
  {
    showHidden || !StartsWith(name, ".")
  }

  /** The names `ls` prints, in key order. */
  function Listed(es: Entries, showHidden: bool): (r: seq<string>)
    ensures |r| <= |es|
  {
    if es == [] then []
    else if Visible(es[0].0, showHidden) then [Label(es[0])] + Listed(es[1..], showHidden)
    else Listed(es[1..], showHidden)
  }

  function ListDir(fs: Node, path: string, showHidden: bool): seq<string>
  {
    match DirAt(fs, path)
    case Some(es) => Listed(es, showHidden)
    case None => []
  }

  /** `cd ..`: drops the last "/"-separated piece only while more than two
   *  pieces remain. */
  function ParentPath(p: string): string
  {
    var ps := Split(p, '/');
    if |ps| > 2 then Join(ps[..|ps| - 1], "/") else p
  }

  function ChildPath(p: string, name: string): string
  {
    if p == "/" then "/" + name else p + "/" + name
  }

  /** `dir[name]` exists and is a directory. */
  predicate IsSubdir(fs: Node, path: string, name: string)
  {
    DirAt(fs, path).Some? && Get(DirAt(fs, path).value, name).Some?
    && Get(DirAt(fs, path).value, name).value.Dir?
  }

  function Cd(s: Session, a: Option<string>): (o: Outcome)
    ensures o.session == s.(path := o.session.path)
  {
    if !Truthy(a) then Outcome(s, Quiet)
    else if a.value == ".." then Outcome(s.(path := ParentPath(s.path)), Quiet)
    else if IsSubdir(s.fs, s.path, a.value) then Outcome(s.(path := ChildPath(s.path, a.value)), Quiet)
    else Outcome(s, NoSuchDirectory(a.value))
  }

  /** The tree with the current directory's entries replaced. */
  function WithEntries(s: Session, es: Entries): Session
  {
    s.(fs := TerminalCore.Edit(s.fs, TerminalCore.Parts(s.path), Dir(es)))
  }

  function Mkdir(s: Session, a: Option<string>): (o: Outcome)
    ensures o.session == s.(fs := o.session.fs)
  {
    var dir := DirAt(s.fs, s.path);
    if !Truthy(a) || dir.None? then Outcome(s, Quiet)
    else if Get(dir.value, a.value).Some? then Outcome(s, FileExists(a.value))
    else Outcome(WithEntries(s, Put(dir.value, a.value, Dir([]))), Quiet)
  }

  function Touch(s: Session, a: Option<string>): (o: Outcome)
    ensures o.session == s.(fs := o.session.fs)
  {
    var dir := DirAt(s.fs, s.path);
    if !Truthy(a) || dir.None? then Outcome(s, Quiet)
    else Outcome(WithEntries(s, Put(dir.value, a.value, File)), Quiet)
  }

  function Rmdir(s: Session, a: Option<string>): (o: Outcome)
    ensures o.session == s.(fs := o.session.fs)
  {
    var dir := DirAt(s.fs, s.path);
    if !Truthy(a) || dir.None? then Outcome(s, Quiet)
    else
      var child := Get(dir.value, a.value);
      if child.Some? && child.value.Dir? then
        if |child.value.entries| == 0 then Outcome(WithEntries(s, Delete(dir.value, a.value)), Quiet)
        else Outcome(s, NotEmpty(a.value))
      else Outcome(s, NoSuchEntry(a.value))
  }

  /** `cat`: two built-in texts, then an existing file reads as empty. A
   *  missing argument is looked up under the key "undefined". */
  function Cat(fs: Node, path: string, a: Option<string>): Reply
  {
    if a == Some("readme.md") then Readme
    else if a == Some(".secrets") then Secrets
    else if DirAt(fs, path).Some? && Get(DirAt(fs, path).value, Spelled(a)) == Some(File) then EmptyFile
    else NoSuchFile(Spelled(a))
  }

  function Open(windows: Option<set<string>>, a: Option<string>): Reply
  {
    var name := Lower(Spelled(a));
    if windows.Some? && (name in windows.value || name == "terminal" || name == "vault") then Opening(name)
    else AppNotFound(name)
  }

  // ---------------------------------------------------------------------------
  // calc: only the validation; the evaluation itself is `Function(...)`.

  predicate CalcChar(c: char)
  {
    IsDigit(c) || c in "+-*/().%" || IsSpace(c)
  }

  predicate IsOperator(c: char)
  {
    c in "+-*/%"
  }

  predicate AllCalcChars(s: string)
  {
    forall i :: 0 <= i < |s| ==> CalcChar(s[i])
  }

  /** `s.replace(/\s/g, '')`. */
  function NoSpaces(s: string): (r: string)
    ensures |r| <= |s|
    ensures forall i :: 0 <= i < |r| ==> !IsSpace(r[i])
  {
    if s == [] then []
    else if IsSpace(s[0]) then NoSpaces(s[1..])
    else [s[0]] + NoSpaces(s[1..])
  }

  /** `/[+\-*\/%]{2,}/.test(s)`: two operators in a row somewhere. */
  predicate DoubleOperator(s: string)
  {
    |s| >= 2 && ((IsOperator(s[0]) && IsOperator(s[1])) || DoubleOperator(s[1..]))
  }

  function Calc(expr: string): Reply
  {
    if Trim(expr) == "" then CalcUsage
    else if !AllCalcChars(expr) then CalcInvalid
    else if DoubleOperator(NoSpaces(expr)) then CalcConsecutive
    else CalcEvaluated(expr)
  }

  // ---------------------------------------------------------------------------
  // flip and rps

  /** `args.slice(1).join(" ") || "Hello World"`. */
  function FlipText(args: seq<string>): string
    requires |args| >= 1
  {
    var t := Join(args[1..], " ");
    if t == "" then "Hello World" else t
  }

  /** `flipMap[c] || c`. */
  function FlipChar(c: char): char
  {
    match c
    case 'a' => '\U{250}'
    case 'b' => 'q'
    case 'c' => '\U{254}'
    case 'd' => 'p'
    case 'e' => '\U{1DD}'
    case 'f' => '\U{25F}'
    case 'g' => '\U{183}'
    case 'h' => '\U{265}'
    case 'i' => '\U{1D09}'
    case 'j' => '\U{27E}'
    case 'k' => '\U{29E}'
    case 'l' => 'l'
    case 'm' => '\U{26F}'
    case 'n' => 'u'
    case 'o' => 'o'
    case 'p' => 'd'
    case 'q' => 'b'
    case 'r' => '\U{279}'
    case 's' => 's'
    case 't' => '\U{287}'
    case 'u' => 'n'
    case 'v' => '\U{28C}'
    case 'w' => '\U{28D}'
    case 'x' => 'x'
    case 'y' => '\U{28E}'
    case 'z' => 'z'
    case 'A' => '\U{2200}'
    case 'B' => 'q'
    case 'C' => '\U{186}'
    case 'D' => 'p'
    case 'E' => '\U{18E}'
    case 'F' => '\U{2132}'
    case 'G' => '\U{2141}'
    case 'H' => 'H'
    case 'I' => 'I'
    case 'J' => '\U{17F}'
    case 'K' => '\U{29E}'
    case 'L' => '\U{2E5}'
    case 'M' => 'W'
    case 'N' => 'N'
    case 'O' => 'O'
    case 'P' => '\U{500}'
    case 'Q' => 'Q'
    case 'R' => '\U{279}'
    case 'S' => 'S'
    case 'T' => '\U{22A5}'
    case 'U' => '\U{2229}'
    case 'V' => '\U{39B}'
    case 'W' => 'M'
    case 'X' => 'X'
    case 'Y' => '\U{2144}'
    case 'Z' => 'Z'
    case '1' => '\U{196}'
    case '2' => '\U{1105}'
    case '3' => '\U{190}'
    case '4' => '\U{3123}'
    case '5' => '\U{3DB}'
    case '6' => '9'
    case '7' => '\U{3125}'
    case '8' => '8'
    case '9' => '6'
    case '0' => '0'
    case '.' => '\U{2D9}'
    case ',' => '\''
    case '\'' => ','
    case '\"' => '\U{201E}'
    case '`' => ','
    case '?' => '\U{BF}'
    case '!' => '\U{A1}'
    case '[' => ']'
    case ']' => '['
    case '(' => ')'
    case ')' => '('
    case '{' => '}'
    case '}' => '{'
    case '<' => '>'
    case '>' => '<'
    case '_' => '\U{203E}'
    case '^' => 'v'
    case '&' => '\U{214B}'
    case _ => c
  }

  /** Each character mapped through the table, then the order reversed. */
  function Flip(s: string): (r: string)
    ensures |r| == |s|
    ensures forall i :: 0 <= i < |s| ==> r[i] == FlipChar(s[|s| - 1 - i])
  {
    if s == [] then [] else Flip(s[1..]) + [FlipChar(s[0])]
  }

  /** Characters the table turns back into themselves when applied twice
   *  (b/q, d/p, n/u, 6/9, brackets, …). */
  predicate Mirrored(s: string)
  {
    forall i :: 0 <= i < |s| ==> FlipChar(FlipChar(s[i])) == s[i]
  }

  /** Flipping twice gives the text back exactly when every character is
   *  mirrored by the table. */
  lemma FlipTwice(s: string)
    ensures Flip(Flip(s)) == s <==> Mirrored(s)
  {
    var r := Flip(Flip(s));
    assert forall i :: 0 <= i < |s| ==> r[i] == FlipChar(FlipChar(s[i]));
    if Mirrored(s) {
      assert r == s;
    } else {
      var i :| 0 <= i < |s| && FlipChar(FlipChar(s[i])) != s[i];
      assert r[i] != s[i];
    }
  }

  /** "It's a draw", "You win" and "You lose" are decided by this relation. */
  predicate Beats(a: Hand, b: Hand)
  {
    (a == Rock && b == Scissors) || (a == Paper && b == Rock) || (a == Scissors && b == Paper)
  }

  function RpsOutcome(player: Hand, cpu: Hand): RpsResult
  {
    if player == cpu then Draw
    else if Beats(player, cpu) then Win
    else Lose
  }

  /** The player's hand from the first letter of the argument. */
  function HandOf(word: string): Option<Hand>
  {
    if StartsWith(word, "r") then Some(Rock)
    else if StartsWith(word, "p") then Some(Paper)
    else if StartsWith(word, "s") then Some(Scissors)
    else None
  }

  function Rps(a: Option<string>, choice: nat): Reply
  {
    var word := Lower(if a.Some? then a.value else "");
    match HandOf(word)
    case None => RpsUsage
    case Some(p) =>
      var cpu := [Rock, Paper, Scissors][choice % 3];
      RpsPlayed(p, cpu, RpsOutcome(p, cpu))
  }

  /** The player wins exactly when their hand beats the computer's, loses
   *  exactly when the computer's beats theirs, and draws on equal hands;
   *  swapping the hands swaps win and loss. */
  lemma RpsFacts(p: Hand, c: Hand)
    ensures RpsOutcome(p, c) == Win <==> Beats(p, c)
    ensures RpsOutcome(p, c) == Lose <==> Beats(c, p)
    ensures RpsOutcome(p, c) == Draw <==> p == c
    ensures RpsOutcome(c, p) == (match RpsOutcome(p, c) case Win => Lose case Lose => Win case Draw => Draw)
  {
  }

  // ---------------------------------------------------------------------------
  // Properties of the command machine

  /** An empty line is only echoed. */
  lemma EmptyInputIgnored(s: Session, env: Env)
    ensures Handled(s, "", env) == Outcome(s, Quiet)
  {
  }

  /** No standard command touches the history. */
  lemma CommandKeepsHistory(s: Session, input: string, env: Env)
    ensures Command(s, input, env).session.history == s.history
    ensures Command(s, input, env).session.historyIndex == s.historyIndex
  {
  }

  /** Lines answered by an active sub-mode never reach the history; any
   *  other non-empty line is appended to it and the history index reset. */
  lemma HistoryRule(s: Session, input: string, env: Env)
    requires input != ""
    ensures var o := Handled(s, input, env);
      (s.guess.active || s.cisco || s.terraform ==>
         o.session.history == s.history && o.session.historyIndex == s.historyIndex)
      && (!s.guess.active && !s.cisco && !s.terraform ==>
         o.session.history == s.history + [input] && o.session.historyIndex == -1)
  {
    if !s.guess.active && !s.cisco && !s.terraform {
      CommandKeepsHistory(s.(history := s.history + [input], historyIndex := -1), input, env);
    }
  }

  /** The sub-modes are tried in the order guess, cisco, terraform: an
   *  active earlier mode takes the line and leaves the later ones alone. */
  lemma SubModePrecedence(s: Session, input: string, env: Env)
    requires input != ""
    ensures var o := Handled(s, input, env);
      (s.guess.active ==> o.session == s.(guess := o.session.guess))
      && (!s.guess.active && s.cisco ==> o.session == s.(cisco := o.session.cisco))
      && (!s.guess.active && !s.cisco && s.terraform ==> o.session == s.(terraform := false))
  {
  }

  /** The guessing game: a non-number changes nothing, a number counts as
   *  one attempt, and the game ends exactly on the target. */
  lemma GuessFacts(s: Session, input: string, env: Env)
    requires input != "" && s.guess.active
    ensures var g := Handled(s, input, env).session.guess;
      g.target == s.guess.target
      && (ParseInt(input).None? ==> g == s.guess && Handled(s, input, env).reply == NotANumber)
      && (ParseInt(input).Some? ==>
            g.attempts == s.guess.attempts + 1 && (g.active <==> ParseInt(input).value != s.guess.target))
  {
  }

  /** `guess` starts a game with a target between 1 and 100 and no attempts. */
  lemma GuessStartFacts(s: Session, input: string, env: Env)
    requires !s.guess.active && !s.cisco && !s.terraform
    requires Lower(Split(input, ' ')[0]) == "guess"
    ensures var g := Handled(s, input, env).session.guess;
      g.active && 1 <= g.target <= 100 && g.attempts == 0
  {
  }

  /** Terraform mode is entered only by `terraform plan`. */
  lemma TerraformEntry(s: Session, input: string, env: Env)
    requires !s.terraform && Handled(s, input, env).session.terraform
    ensures !s.guess.active && !s.cisco && input != ""
    ensures Lower(Split(input, ' ')[0]) == "terraform" && Arg(Split(input, ' '), 1) == Some("plan")
  {
  }

  /** The line after `terraform plan` always leaves the mode: "yes" or "y"
   *  applies, anything else cancels. */
  lemma TerraformAnswer(s: Session, input: string, env: Env)
    requires s.terraform && !s.guess.active && !s.cisco && input != ""
    ensures !Handled(s, input, env).session.terraform
    ensures Handled(s, input, env).reply == Applied <==> Lower(Trim(input)) in {"yes", "y"}
  {
  }

  /** The router session ends only on exit, quit or logout. */
  lemma CiscoFacts(s: Session, input: string, env: Env)
    requires input != "" && !s.guess.active && s.cisco
    ensures !Handled(s, input, env).session.cisco <==> Lower(Trim(input)) in {"exit", "quit", "logout"}
  {
  }

  /** The current path always starts with the pieces "" and "home": `cd ..`
   *  never climbs above "/home". */
  predicate HomeRooted(p: string)
  {
    var ps := Split(p, '/');
    |ps| >= 2 && ps[0] == "" && ps[1] == "home"
  }

  lemma HomePathRooted()
    ensures HomeRooted(State.HomePath)
  {
    var parts := ["", "home", "guest"];
    assert Join(parts, "/") == State.HomePath;
    SplitJoin(parts, '/');
  }

  /** `cd ..` removes exactly the last piece while more than two remain,
   *  and a home-rooted path stays home-rooted. */
  lemma {:induction false} ParentPathFacts(p: string)
    ensures var ps := Split(p, '/');
      (|ps| > 2 ==> Split(ParentPath(p), '/') == ps[..|ps| - 1])
      && (|ps| <= 2 ==> ParentPath(p) == p)
    ensures HomeRooted(p) ==> HomeRooted(ParentPath(p))
  {
    var ps := Split(p, '/');
    if |ps| > 2 {
      SplitPieces(p, '/');
      SplitJoin(ps[..|ps| - 1], '/');
    }
  }

  /** "/home" is a fixed point of `cd ..`. */
  lemma HomeIsTop()
    ensures ParentPath("/home") == "/home"
  {
    SplitAppend("", "home", '/');
    SplitNoSep("home", '/');
    assert "" + ['/'] + "home" == "/home";
  }

  /** Entering `name` from a home-rooted path appends it as one more piece;
   *  when the name holds no "/" and is not the skipped "root", the new path
   *  resolves to that very subdirectory. */
  lemma {:induction false} ChildPathFacts(fs: Node, p: string, name: string)
    requires HomeRooted(p) && name != ""
    ensures Split(ChildPath(p, name), '/') == Split(p, '/') + Split(name, '/')
    ensures HomeRooted(ChildPath(p, name))
    ensures '/' !in name && name != "root" && IsSubdir(fs, p, name) ==>
      TerminalCore.Resolve(fs, TerminalCore.Parts(ChildPath(p, name)))
        == Get(DirAt(fs, p).value, name)
  {
    assert Split("/", '/') == ["", ""] by { assert "/"[1..] == ""; }
    SplitAppend(p, name, '/');
    assert ChildPath(p, name) == p + ['/'] + name;
    if '/' !in name && name != "root" && IsSubdir(fs, p, name) {
      var es := DirAt(fs, p).value;
      var pp := TerminalCore.Parts(p);
      SplitNoSep(name, '/');
      NonEmptyAppend(Split(p, '/'), [name]);
      assert NonEmpty([name]) == [name];
      assert TerminalCore.Parts(ChildPath(p, name)) == pp + [name];
      TerminalCore.ResolveAppend(fs, pp, [name]);
      assert TerminalCore.Resolve(fs, pp) == Some(Dir(es));
      var child := Get(es, name).value;
      assert [name][1..] == [];
      assert TerminalCore.Resolve(Dir(es), [name]) == TerminalCore.Resolve(child, []);
    }
  }

  /** `cd`: no argument does nothing, `..` goes up, a subdirectory is
   *  entered, and anything else leaves the path unchanged with an error. */
  lemma CdFacts(s: Session, a: Option<string>)
    ensures var o := Cd(s, a);
      o.session == s.(path := o.session.path)
      && (!Truthy(a) ==> o == Outcome(s, Quiet))
      && (Truthy(a) && a.value == ".." ==> o.session.path == ParentPath(s.path))
      && (Truthy(a) && a.value != ".." ==>
            (IsSubdir(s.fs, s.path, a.value) ==> o.session.path == ChildPath(s.path, a.value) && o.reply == Quiet)
            && (!IsSubdir(s.fs, s.path, a.value) ==> o == Outcome(s, NoSuchDirectory(a.value))))
  {
  }

  /** Every command keeps the path home-rooted and the tree a directory. */
  lemma HandledKeepsInvariant(s: Session, input: string, env: Env)
    requires HomeRooted(s.path) && s.fs.Dir?
    ensures HomeRooted(Handled(s, input, env).session.path)
    ensures Handled(s, input, env).session.fs.Dir?
  {
    if input != "" && !s.guess.active && !s.cisco && !s.terraform {
      CommandKeepsInvariant(s.(history := s.history + [input], historyIndex := -1), input, env);
    }
  }

  lemma CommandKeepsInvariant(s: Session, input: string, env: Env)
    requires HomeRooted(s.path) && s.fs.Dir?
    ensures HomeRooted(Command(s, input, env).session.path)
    ensures Command(s, input, env).session.fs.Dir?
  {
    CommandKeepsHome(s, input, env);
    CommandKeepsDir(s, input, env);
  }

  lemma CommandKeepsHome(s: Session, input: string, env: Env)
    requires HomeRooted(s.path)
    ensures HomeRooted(Command(s, input, env).session.path)
  {
    var args := Split(input, ' ');
    var cmd := Lower(args[0]);
    if VerbOf(cmd) == ChangeDir {
      assert Command(s, input, env) == Cd(s, Arg(args, 1));
      CdKeepsHome(s, Arg(args, 1));
    }
  }

  lemma CommandKeepsDir(s: Session, input: string, env: Env)
    requires s.fs.Dir?
    ensures Command(s, input, env).session.fs.Dir?
  {
    var args := Split(input, ' ');
    var cmd := Lower(args[0]);
    var a := Arg(args, 1);
    EditsKeepDir(s, a);
    match VerbOf(cmd)
    case MakeDir => assert Command(s, input, env) == Mkdir(s, a);
    case TouchFile => assert Command(s, input, env) == Touch(s, a);
    case RemoveDir => assert Command(s, input, env) == Rmdir(s, a);
    case _ =>
  }

  lemma CdKeepsHome(s: Session, a: Option<string>)
    requires HomeRooted(s.path)
    ensures HomeRooted(Cd(s, a).session.path)
  {
    ParentPathFacts(s.path);
    if Truthy(a) && a.value != ".." {
      ChildPathFacts(s.fs, s.path, a.value);
    }
  }

  lemma EditsKeepDir(s: Session, a: Option<string>)
    requires s.fs.Dir?
    ensures Mkdir(s, a).session.fs.Dir? && Touch(s, a).session.fs.Dir? && Rmdir(s, a).session.fs.Dir?
  {
    var dir := DirAt(s.fs, s.path);
    if dir.Some? && Truthy(a) {
      var parts := TerminalCore.Parts(s.path);
      TerminalCore.EditKeepsDir(s.fs, parts, Dir(Put(dir.value, a.value, Dir([]))));
      TerminalCore.EditKeepsDir(s.fs, parts, Dir(Put(dir.value, a.value, File)));
      TerminalCore.EditKeepsDir(s.fs, parts, Dir(Delete(dir.value, a.value)));
    }
  }

  /** Only mkdir, touch and rmdir change the tree. */
  lemma TreeChangedOnlyByEdits(s: Session, input: string, env: Env)
    requires Lower(Split(input, ' ')[0]) !in {"mkdir", "touch", "rmdir"}
    ensures Handled(s, input, env).session.fs == s.fs
  {
  }

  /** `mkdir name`: an existing name of either kind is an error that changes
   *  nothing; otherwise an empty directory is added after the existing
   *  entries of the current directory. */
  lemma MkdirFacts(s: Session, name: string)
    requires name != "" && DirAt(s.fs, s.path).Some?
    ensures var es := DirAt(s.fs, s.path).value;
      var o := Mkdir(s, Some(name));
      (Get(es, name).Some? ==> o == Outcome(s, FileExists(name)))
      && (Get(es, name).None? ==>
            o.reply == Quiet && o.session == s.(fs := o.session.fs)
            && DirAt(o.session.fs, s.path) == Some(es + [(name, Dir([]))]))
  {
    var es := DirAt(s.fs, s.path).value;
    if Get(es, name).None? {
      PutNew(es, name, Dir([]));
      TerminalCore.EditResolves(s.fs, TerminalCore.Parts(s.path), Dir(es + [(name, Dir([]))]));
    }
  }

  /** `touch name` makes the name a file, even over an existing directory,
   *  and leaves every other entry as it was. */
  lemma TouchFacts(s: Session, name: string, other: string)
    requires name != "" && DirAt(s.fs, s.path).Some?
    ensures var es := DirAt(s.fs, s.path).value;
      var o := Touch(s, Some(name));
      var after := DirAt(o.session.fs, s.path);
      after.Some? && Get(after.value, name) == Some(File)
      && (other != name ==> Get(after.value, other) == Get(es, other))
  {
    var es := DirAt(s.fs, s.path).value;
    TerminalCore.EditResolves(s.fs, TerminalCore.Parts(s.path), Dir(Put(es, name, File)));
    GetPut(es, name, File, other);
  }

  /** `rmdir name` removes the entry exactly when it is an empty directory;
   *  otherwise the tree is unchanged and the error says why. */
  lemma RmdirFacts(s: Session, name: string, other: string)
    requires name != "" && DirAt(s.fs, s.path).Some?
    ensures var es := DirAt(s.fs, s.path).value;
      var o := Rmdir(s, Some(name));
      (Get(es, name) == Some(Dir([])) ==>
         o.reply == Quiet && DirAt(o.session.fs, s.path).Some?
         && Get(DirAt(o.session.fs, s.path).value, name).None?
         && (other != name ==> Get(DirAt(o.session.fs, s.path).value, other) == Get(es, other)))
      && (Get(es, name) != Some(Dir([])) ==>
            o.session == s
            && o.reply == (if Get(es, name).Some? && Get(es, name).value.Dir? then NotEmpty(name)
                           else NoSuchEntry(name)))
  {
    var es := DirAt(s.fs, s.path).value;
    if Get(es, name) == Some(Dir([])) {
      TerminalCore.EditResolves(s.fs, TerminalCore.Parts(s.path), Dir(Delete(es, name)));
      GetDelete(es, name, other);
    }
  }

  /** `ls -a` lists every entry, in key order. */
  lemma {:induction false} ListedAll(es: Entries)
    ensures |Listed(es, true)| == |es|
    ensures forall i :: 0 <= i < |es| ==> Listed(es, true)[i] == Label(es[i])
  {
    if es != [] {
      ListedAll(es[1..]);
      assert Listed(es, true) == [Label(es[0])] + Listed(es[1..], true);
    }
  }

  /** `ls` lists every visible entry. */
  lemma {:induction false} ListedComplete(es: Entries, showHidden: bool)
    ensures forall i :: 0 <= i < |es| && Visible(es[i].0, showHidden) ==> Label(es[i]) in Listed(es, showHidden)
  {
    if es != [] {
      ListedComplete(es[1..], showHidden);
      forall i | 0 < i < |es| && Visible(es[i].0, showHidden)
        ensures Label(es[i]) in Listed(es, showHidden)
      {
        assert es[1..][i - 1] == es[i];
      }
    }
  }

  /** Without "-a" no name `ls` prints starts with a dot. */
  lemma {:induction false} ListedSound(es: Entries, showHidden: bool)
    ensures forall x :: x in Listed(es, showHidden) ==> Visible(x, showHidden)
  {
    if es != [] {
      ListedSound(es[1..], showHidden);
      if Visible(es[0].0, showHidden) {
        LabelVisible(es[0], showHidden);
      }
    }
  }

  /** The trailing "/" does not change whether a name is hidden. */
  lemma LabelVisible(e: (string, Node), showHidden: bool)
    requires Visible(e.0, showHidden)
    ensures Visible(Label(e), showHidden)
  {
    var l := Label(e);
    if showHidden {
    } else if |e.0| > 0 {
      assert l[..1] == e.0[..1];
      assert e.0[..1] != ".";
      assert !StartsWith(l, ".");
    } else if e.1.Dir? {
      assert l == "/";
      assert l[..1][0] == '/' && "."[0] == '.';
    } else {
      assert l == "";
    }
  }

  /** `cat`: the built-in texts win, then a file entry reads as empty, and
   *  anything else (a directory, a missing name) is reported missing. */
  lemma CatFacts(fs: Node, path: string, name: string)
    requires name != "readme.md" && name != ".secrets"
    ensures Cat(fs, path, Some(name)) == EmptyFile <==>
      DirAt(fs, path).Some? && Get(DirAt(fs, path).value, name) == Some(File)
    ensures Cat(fs, path, Some(name)) != EmptyFile ==> Cat(fs, path, Some(name)) == NoSuchFile(name)
  {
  }

  /** `quote`: shows the entry at the index, keeps the index inside the
   *  list and never changes the list, so the same order repeats. */
  lemma QuoteFacts(s: Session)
    requires 0 <= s.quoteIndex < |s.quotes|
    ensures var o := Quote(s);
      o.reply == QuoteShown(s.quotes[s.quoteIndex])
      && o.session.quotes == s.quotes
      && 0 <= o.session.quoteIndex < |s.quotes|
      && o.session.quoteIndex == (s.quoteIndex + 1) % |s.quotes|
  {
  }

  /** The personality commands change the mode and user only when the
   *  terminal window exists, and nothing else. */
  lemma PersonalityFacts(s: Session, input: string, env: Env)
    requires !s.guess.active && !s.cisco && !s.terraform
    requires Lower(Split(input, ' ')[0]) in {"cyberpunk", "fallout"}
    ensures var o := Handled(s, input, env);
      var mode := Lower(Split(input, ' ')[0]);
      (env.terminalWindow ==>
         o.session.terminal.mode == mode
         && o.session.terminal.user == (if mode == "cyberpunk" then "V" else "VAULT_DWELLER")
         && o.session.terminal.host == s.terminal.host)
      && (!env.terminalWindow ==> o.session.terminal == s.terminal)
  {
  }

  // ---------------------------------------------------------------------------
  // The interpreter's variables and the handler, step by step

  /** The module-level variables of the interpreter: the shared file tree
   *  it edits in place, `currentPath` and the three sub-mode flags. The
   *  history, the personality and the quote index live in the shared
   *  state. */
  class Shell {
    var fs: Node
    var currentPath: string
    var guess: Guess
    var cisco: bool
    var terraform: bool

    constructor(root: Node)
      ensures fs == root && currentPath == State.HomePath
      ensures guess == Guess(false, 0, 0) && !cisco && !terraform
      ensures root.Dir? ==> Valid()
    {
      HomePathRooted();
      fs := root;
      currentPath := State.HomePath;
      guess := Guess(false, 0, 0);
      cisco := false;
      terraform := false;
    }

    /** The tree is a directory and the path lies under "/home". */
    ghost predicate Valid()
      reads this
    {
      fs.Dir? && HomeRooted(currentPath)
    }

    /** The state a command sees. */
    function SessionOf(app: State.AppState): Session
      reads this, app
    {
      Session(fs, currentPath, guess, cisco, terraform, app.terminalHistory, app.terminalHistoryIndex,
              app.terminal, app.shuffledQuotes, app.quoteIndex)
    }

    /** `handlePietrOSCommand`: echo, the sub-modes in order, then the
     *  history and the standard commands. */
    method Handle(app: State.AppState, input: string, env: Env) returns (reply: Reply)
      requires Valid()
      modifies this, app`terminalHistory, app`terminalHistoryIndex, app`terminal, app`quoteIndex
      ensures Valid()
      ensures Outcome(SessionOf(app), reply) == Handled(old(SessionOf(app)), input, env)
    {
      HandledKeepsInvariant(SessionOf(app), input, env);
      if input == "" {
        return Quiet;
      }
      if guess.active {
        reply := GuessLine(app, input);
        return;
      }
      if cisco {
        reply := CiscoLine(app, input);
        return;
      }
      if terraform {
        reply := TerraformLine(app, input);
        return;
      }
      app.PushTerminalHistory(input);
      app.SetTerminalHistoryIndex(-1);
      reply := RunCommand(app, input, env);
    }

    method GuessLine(app: State.AppState, input: string) returns (reply: Reply)
      modifies this`guess
      ensures Outcome(SessionOf(app), reply) == GuessTurn(old(SessionOf(app)), input)
    {
      ghost var before := SessionOf(app);
      var g := ParseInt(input);
      if g.None? {
        assert GuessTurn(before, input) == Outcome(before, NotANumber);
        return NotANumber;
      }
      var n := guess.attempts + 1;
      if g.value == guess.target {
        reply := Correct(guess.target, n);
        guess := Guess(false, guess.target, n);
        assert GuessTurn(before, input) == Outcome(before.(guess := guess), reply);
      } else {
        reply := if g.value < guess.target then TooLow else TooHigh;
        guess := guess.(attempts := n);
        assert GuessTurn(before, input) == Outcome(before.(guess := guess), reply);
      }
      assert SessionOf(app) == before.(guess := guess);
    }

    method CiscoLine(app: State.AppState, input: string) returns (reply: Reply)
      modifies this`cisco
      ensures Outcome(SessionOf(app), reply) == CiscoTurn(old(SessionOf(app)), input)
    {
      var c := Lower(Trim(input));
      if c == "exit" || c == "quit" || c == "logout" {
        cisco := false;
        reply := CiscoClosed;
      } else if c == "?" || c == "help" {
        reply := CiscoHelp;
      } else if StartsWith(c, "show") {
        reply := CiscoShow;
      } else {
        reply := CiscoUnknown;
      }
    }

    method TerraformLine(app: State.AppState, input: string) returns (reply: Reply)
      modifies this`terraform
      ensures Outcome(SessionOf(app), reply) == TerraformTurn(old(SessionOf(app)), input)
    {
      ghost var before := SessionOf(app);
      var r := Lower(Trim(input));
      terraform := false;
      assert SessionOf(app) == before.(terraform := false);
      if r == "yes" || r == "y" {
        reply := Applied;
      } else {
        reply := Cancelled;
      }
    }

    /** The `switch (cmd)`. */
    method RunCommand(app: State.AppState, input: string, env: Env) returns (reply: Reply)
      modifies this`fs, this`currentPath, this`guess, this`cisco, this`terraform, app`terminal, app`quoteIndex
      ensures Outcome(SessionOf(app), reply) == Command(old(SessionOf(app)), input, env)
    {
      var args := Split(input, ' ');
      var cmd := Lower(args[0]);
      reply := Dispatch(app, VerbOf(cmd), args, cmd, env);
    }

    /** One case of the `switch`. */
    method Dispatch(app: State.AppState, v: Verb, args: seq<string>, cmd: string, env: Env) returns (reply: Reply)
      requires |args| >= 1
      modifies this`fs, this`currentPath, this`guess, this`cisco, this`terraform, app`terminal, app`quoteIndex
      ensures Outcome(SessionOf(app), reply) == Run(old(SessionOf(app)), v, args, cmd, env)
    {
      var a := Arg(args, 1);
      match v {
        case ToCyberpunk => reply := SwitchPersonality(app, env.terminalWindow, "cyberpunk", "V");
        case ToFallout => reply := SwitchPersonality(app, env.terminalWindow, "fallout", "VAULT_DWELLER");
        case ChangeDir => reply := ChangeDirectory(app, a);
        case MakeDir => reply := MakeDirectory(app, a);
        case TouchFile => reply := TouchEntry(app, a);
        case RemoveDir => reply := RemoveDirectory(app, a);
        case StartGuess =>
          guess := Guess(true, env.choice % 100 + 1, 0);
          reply := GuessStarted;
        case TerraformCmd => reply := StartTerraform(app, a);
        case Connect =>
          cisco := true;
          reply := CiscoConnecting;
        case ShowQuote => reply := NextQuote(app);
        case _ => reply := OutputOnly(app, v, args, cmd, env);
      }
    }

    /** The commands that only print. */
    method OutputOnly(app: State.AppState, v: Verb, args: seq<string>, cmd: string, env: Env) returns (reply: Reply)
      requires |args| >= 1
      requires v !in {ToCyberpunk, ToFallout, ChangeDir, MakeDir, TouchFile, RemoveDir, StartGuess, TerraformCmd,
                      Connect, ShowQuote}
      ensures Outcome(SessionOf(app), reply) == Run(SessionOf(app), v, args, cmd, env)
    {
      var a := Arg(args, 1);
      match v {
        case ClearScreen => reply := Cleared;
        case WhoAmI => reply := Said("guest");
        case PrintDir => reply := Said(currentPath);
        case List =>
          var node := TerminalCore.ResolvePath(fs, currentPath);
          var items := if node.Some? && node.value.Dir? then Listed(node.value.entries, "-a" in args) else [];
          reply := Listing(items);
        case ShowFile => reply := Cat(fs, currentPath, a);
        case NoClip => reply := Opening("experiments");
        case OpenWindow => reply := Open(env.windows, a);
        case Calculate => reply := Calc(Join(args[1..], ""));
        case FlipCmd => reply := Flipped(Flip(FlipText(args)));
        case PlayRps => reply := Rps(a, env.choice);
        case Launch => reply := Opening(cmd);
        case CannedCmd => reply := Canned(cmd);
        case Unknown => reply := NotFound(cmd);
      }
    }

    method SwitchPersonality(app: State.AppState, terminalWindow: bool, mode: string, user: string)
      returns (reply: Reply)
      modifies app`terminal
      ensures Outcome(SessionOf(app), reply) == SwitchTo(old(SessionOf(app)), terminalWindow, mode, user)
    {
      reply := Quiet;
      if terminalWindow {
        app.terminal := app.terminal.(mode := mode);
        app.terminal := app.terminal.(user := user);
        reply := Personality(mode);
      }
    }

    method ChangeDirectory(app: State.AppState, a: Option<string>) returns (reply: Reply)
      modifies this`currentPath
      ensures Outcome(SessionOf(app), reply) == Cd(old(SessionOf(app)), a)
    {
      reply := Quiet;
      if !Truthy(a) {
        return;
      }
      if a.value == ".." {
        var parts := Split(currentPath, '/');
        if |parts| > 2 {
          currentPath := Join(parts[..|parts| - 1], "/");
        }
      } else {
        var node := TerminalCore.ResolvePath(fs, currentPath);
        if node.Some? && node.value.Dir? && Get(node.value.entries, a.value).Some?
           && Get(node.value.entries, a.value).value.Dir? {
          currentPath := if currentPath == "/" then "/" + a.value else currentPath + "/" + a.value;
        } else {
          reply := NoSuchDirectory(a.value);
        }
      }
    }

    method MakeDirectory(app: State.AppState, a: Option<string>) returns (reply: Reply)
      modifies this`fs
      ensures Outcome(SessionOf(app), reply) == Mkdir(old(SessionOf(app)), a)
    {
      reply := Quiet;
      var node := TerminalCore.ResolvePath(fs, currentPath);
      if Truthy(a) && node.Some? && node.value.Dir? {
        var es := node.value.entries;
        if Get(es, a.value).Some? {
          reply := FileExists(a.value);
        } else {
          fs := TerminalCore.Edit(fs, TerminalCore.Parts(currentPath), Dir(Put(es, a.value, Dir([]))));
        }
      }
    }

    method TouchEntry(app: State.AppState, a: Option<string>) returns (reply: Reply)
      modifies this`fs
      ensures Outcome(SessionOf(app), reply) == Touch(old(SessionOf(app)), a)
    {
      reply := Quiet;
      var node := TerminalCore.ResolvePath(fs, currentPath);
      if Truthy(a) && node.Some? && node.value.Dir? {
        fs := TerminalCore.Edit(fs, TerminalCore.Parts(currentPath), Dir(Put(node.value.entries, a.value, File)));
      }
    }

    method RemoveDirectory(app: State.AppState, a: Option<string>) returns (reply: Reply)
      modifies this`fs
      ensures Outcome(SessionOf(app), reply) == Rmdir(old(SessionOf(app)), a)
    {
      reply := Quiet;
      var node := TerminalCore.ResolvePath(fs, currentPath);
      if Truthy(a) && node.Some? && node.value.Dir? {
        var es := node.value.entries;
        var child := Get(es, a.value);
        if child.Some? && child.value.Dir? {
          if |child.value.entries| == 0 {
            fs := TerminalCore.Edit(fs, TerminalCore.Parts(currentPath), Dir(Delete(es, a.value)));
          } else {
            reply := NotEmpty(a.value);
          }
        } else {
          reply := NoSuchEntry(a.value);
        }
      }
    }

    method StartTerraform(app: State.AppState, a: Option<string>) returns (reply: Reply)
      modifies this`terraform
      ensures Outcome(SessionOf(app), reply) == Terraform(old(SessionOf(app)), a)
    {
      if !Truthy(a) {
        reply := TerraformUsage;
      } else if a.value == "init" {
        reply := TerraformInit;
      } else if a.value == "plan" {
        reply := TerraformPlan;
        terraform := true;
      } else {
        reply := TerraformOther;
      }
    }

    /** `quote`: the reshuffle at the wrap-around shuffles a copy of the
     *  quote list and drops it, so it has no effect here. */
    method NextQuote(app: State.AppState) returns (reply: Reply)
      modifies app`quoteIndex
      ensures Outcome(SessionOf(app), reply) == Quote(old(SessionOf(app)))
    {
      var q := TerminalCore.At(app.shuffledQuotes, app.quoteIndex);
      app.SetQuoteIndex(app.quoteIndex + 1);
      if app.quoteIndex >= |app.shuffledQuotes| {
        app.SetQuoteIndex(0);
      }
      reply := QuoteShown(q);
    }
  }
}
