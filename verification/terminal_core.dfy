/** The shared terminal machinery of `src/terminal/core.ts`: path resolution
 *  over the virtual file system, history navigation with the arrow keys, Tab
 *  completion, routing of Enter to the handler of the active personality,
 *  and the prompt text. */
module TerminalCore {
  import opened Wrappers
  import opened Text
  import opened FsTree
  import State

  // ---------------------------------------------------------------------------
  // resolvePath

  /** `path.split("/").filter(p => p)`. */
  function Parts(path: string): (r: seq<string>)
    ensures forall i :: 0 <= i < |r| ==> r[i] != "" && '/' !in r[i]
  {
    SplitPieces(path, '/');
    var r := NonEmpty(Split(path, '/'));
    assert forall i :: 0 <= i < |r| ==> r[i] in Split(path, '/');
    r
  }

  /** The walk of `resolvePath` from `n` over `parts`: a "root" segment is
   *  skipped, any other segment descends into a child directory of that
   *  name, and a missing name or a file ends the walk with `null`. */
  function Resolve(n: Node, parts: seq<string>): (r: Option<Node>)
    ensures r.Some? && n.Dir? ==> r.value.Dir?
    decreases |parts|
  {
    if parts == [] then Some(n)
    else if parts[0] == "root" then Resolve(n, parts[1..])
    else
      match n
      case File => None
      case Dir(es) =>
        match Get(es, parts[0])
        case Some(child) => if child.Dir? then Resolve(child, parts[1..]) else None
        case None => None
  }

  /** `resolvePath(path)` against the tree `root` (`fileSystem["root"]`). */
  method ResolvePath(root: Node, path: string) returns (r: Option<Node>)
    ensures r == Resolve(root, Parts(path))
  {
    var parts := Parts(path);
    var current := root;
    var i := 0;
    while i < |parts|
      invariant 0 <= i <= |parts|
      invariant Resolve(root, parts) == Resolve(current, parts[i..])
    {
      assert parts[i..][1..] == parts[i + 1..];
      var part := parts[i];
      if part == "root" {
        i := i + 1;
        continue;
      }
      var child := if current.Dir? then Get(current.entries, part) else None;
      if child.Some? && child.value.Dir? {
        current := child.value;
      } else {
        return None;
      }
      i := i + 1;
    }
    r := Some(current);
  }

  /** Resolving `b` from the end of a walk; a failed walk stays failed. */
  function Continue(r: Option<Node>, b: seq<string>): Option<Node>
  {
    match r
    case None => None
    case Some(m) => Resolve(m, b)
  }

  /** Resolving `a + b` is resolving `a`, then `b` from where `a` led. */
  lemma {:induction false} ResolveAppend(n: Node, a: seq<string>, b: seq<string>)
    ensures Resolve(n, a + b) == Continue(Resolve(n, a), b)
    decreases |a|
  {
    if a != [] {
      assert (a + b)[1..] == a[1..] + b;
      assert (a + b)[0] == a[0];
      if a[0] == "root" {
        ResolveAppend(n, a[1..], b);
        assert Resolve(n, a) == Resolve(n, a[1..]);
      } else if n.Dir? {
        var c := Get(n.entries, a[0]);
        if c.Some? && c.value.Dir? {
          ResolveAppend(c.value, a[1..], b);
          assert Resolve(n, a) == Resolve(c.value, a[1..]);
          assert Resolve(n, a + b) == Resolve(c.value, a[1..] + b);
        } else {
          assert Resolve(n, a) == None;
          assert Resolve(n, a + b) == None;
        }
      } else {
        assert Resolve(n, a) == None;
        assert Resolve(n, a + b) == None;
      }
    } else {
      assert a + b == b;
    }
  }

  /** A "root" segment anywhere in the path is ignored. */
  lemma RootSegmentIgnored(n: Node, a: seq<string>, b: seq<string>)
    ensures Resolve(n, a + ["root"] + b) == Resolve(n, a + b)
  {
    ResolveAppend(n, a, ["root"] + b);
    ResolveAppend(n, a, b);
    assert a + ["root"] + b == a + (["root"] + b);
    assert (["root"] + b)[1..] == b;
  }

  /** "/" names the root itself. */
  lemma SlashIsRoot(root: Node)
    ensures Resolve(root, Parts("/")) == Some(root)
  {
    assert Split("/", '/') == ["", ""] by {
      assert "/"[1..] == "";
    }
  }

  /** A leading "/" makes no difference: "home/guest" resolves as
   *  "/home/guest" does. */
  lemma LeadingSlashIgnored(path: string)
    ensures Parts("/" + path) == Parts(path)
  {
    assert ("/" + path)[1..] == path;
    assert Split("/" + path, '/') == [""] + Split(path, '/');
  }

  // ---------------------------------------------------------------------------
  // Writing through the path. `getDirObj()` hands out the directory object
  // itself, so `mkdir`, `touch` and `rmdir` change the shared tree in place;
  // on a tree value that is a rebuild along the path `Resolve` walks.

  /** `n` with the directory that `parts` leads to replaced by `d`; a path
   *  that does not resolve leaves `n` as it is. */
  function Edit(n: Node, parts: seq<string>, d: Node): (r: Node)
    decreases |parts|
  {
    if parts == [] then d
    else if parts[0] == "root" then Edit(n, parts[1..], d)
    else
      match n
      case File => n
      case Dir(es) =>
        match Get(es, parts[0])
        case Some(child) =>
          if child.Dir? then Dir(Put(es, parts[0], Edit(child, parts[1..], d))) else n
        case None => n
  }

  /** After the edit the path leads to the new directory. */
  lemma {:induction false} EditResolves(n: Node, parts: seq<string>, d: Node)
    requires Resolve(n, parts).Some? && d.Dir?
    ensures Resolve(Edit(n, parts, d), parts) == Some(d)
    decreases |parts|
  {
    if parts != [] {
      if parts[0] == "root" {
        EditResolves(n, parts[1..], d);
      } else {
        var child := Get(n.entries, parts[0]).value;
        EditResolves(child, parts[1..], d);
        GetPut(n.entries, parts[0], Edit(child, parts[1..], d), parts[0]);
        EditKeepsDir(child, parts[1..], d);
      }
    }
  }

  lemma {:induction false} EditKeepsDir(n: Node, parts: seq<string>, d: Node)
    requires n.Dir? && d.Dir?
    ensures Edit(n, parts, d).Dir?
    decreases |parts|
  {
    if parts != [] {
      if parts[0] == "root" {
        EditKeepsDir(n, parts[1..], d);
      }
    }
  }

  /** Writing back the directory that was read changes nothing. */
  lemma {:induction false} EditSameIsIdentity(n: Node, parts: seq<string>)
    requires Resolve(n, parts).Some?
    ensures Edit(n, parts, Resolve(n, parts).value) == n
    decreases |parts|
  {
    if parts != [] {
      if parts[0] == "root" {
        EditSameIsIdentity(n, parts[1..]);
      } else {
        var child := Get(n.entries, parts[0]).value;
        EditSameIsIdentity(child, parts[1..]);
        PutSame(n.entries, parts[0]);
      }
    }
  }

  lemma {:induction false} PutSame(es: Entries, key: string)
    requires Get(es, key).Some?
    ensures Put(es, key, Get(es, key).value) == es
  {
    if es[0].0 != key {
      PutSame(es[1..], key);
      assert [es[0]] + es[1..] == es;
    }
  }

  /** A path that does not resolve is not edited. */
  lemma {:induction false} EditMissing(n: Node, parts: seq<string>, d: Node)
    requires Resolve(n, parts).None?
    ensures Edit(n, parts, d) == n
    decreases |parts|
  {
    if parts != [] {
      if parts[0] == "root" {
        EditMissing(n, parts[1..], d);
      } else if n.Dir? {
        var c := Get(n.entries, parts[0]);
        if c.Some? && c.value.Dir? {
          EditMissing(c.value, parts[1..], d);
          PutSame(n.entries, parts[0]);
        }
      }
    }
  }

  // ---------------------------------------------------------------------------
  // The console: history and tab-completion state plus the input box.

  /** The parts of the shared state `handleTerminalCommand` reads or sets,
   *  and the text of the input box. */
  datatype Console = Console(history: seq<string>, index: int, tabIndex: int,
                             lastTab: string, input: string)

  datatype Key = ArrowUp | ArrowDown | Tab | Enter | OtherKey

  /** The completion lists of the configuration, per personality. */
  datatype Commands = Commands(os93: seq<string>, cyberpunk: seq<string>, fallout: seq<string>)

  /** A call of one of the `window.handle…Command` functions. */
  datatype Call = Call(handler: string, input: string)

  /** What one key press leaves behind: the console, the completions listed
   *  in the output (if any) and the handler called (if any). */
  datatype Press = Press(console: Console, listing: Option<seq<string>>, call: Option<Call>)

  /** `h[k]` as JavaScript writes it into the input box: an index outside
   *  the array gives `undefined`, shown as that word. */
  function At(h: seq<string>, k: int): string
  {
    if 0 <= k < |h| then h[k] else "undefined"
  }

  /** The history index counts back from the newest entry; -1 is the fresh
   *  line below the history. */
  predicate IndexOk(c: Console)
  {
    -1 <= c.index < |c.history|
  }

  /** ArrowUp: one entry further back, unless the oldest is already shown. */
  function Up(c: Console): (r: Console)
    ensures r.history == c.history && r.tabIndex == c.tabIndex && r.lastTab == c.lastTab
  {
    if |c.history| > 0 && c.index < |c.history| - 1 then
      c.(index := c.index + 1, input := At(c.history, |c.history| - 1 - (c.index + 1)))
    else c
  }

  /** ArrowDown: one entry forward, down to the fresh empty line. */
  function Down(c: Console): (r: Console)
    ensures r.history == c.history && r.tabIndex == c.tabIndex && r.lastTab == c.lastTab
  {
    if c.index > -1 then
      var i := c.index - 1;
      c.(index := i, input := if i >= 0 then At(c.history, |c.history| - 1 - i) else "")
    else c
  }

  /** The arrow keys keep the index in [-1, |history| - 1], and whatever
   *  they show is the history entry the new index counts back to. */
  lemma ArrowsKeepIndex(c: Console)
    requires IndexOk(c)
    ensures IndexOk(Up(c)) && IndexOk(Down(c))
    ensures Up(c) != c ==>
      (Up(c).index == c.index + 1 && Up(c).input == c.history[|c.history| - 1 - Up(c).index])
    ensures Up(c) == c <==> c.index == |c.history| - 1
    ensures c.index > -1 ==> Down(c).index == c.index - 1
    ensures Down(c).index >= 0 ==> Down(c).input == c.history[|c.history| - 1 - Down(c).index]
    ensures c.index == 0 ==> Down(c).input == ""
  {
  }

  /** ArrowDown undoes ArrowUp: the index returns and the input box shows
   *  the entry (or the empty line) that belongs to it. */
  lemma DownUndoesUp(c: Console)
    requires IndexOk(c) && c.index < |c.history| - 1
    ensures Down(Up(c)).index == c.index
    ensures Down(Up(c)).input == (if c.index >= 0 then c.history[|c.history| - 1 - c.index] else "")
  {
  }

  /** The commands of `cmds` that start with `prefix`, in order
   *  (`commands.filter(cmd => cmd.startsWith(prefix))`). */
  function Matches(cmds: seq<string>, prefix: string): (r: seq<string>)
    ensures |r| <= |cmds|
    ensures forall m :: m in r <==> m in cmds && StartsWith(m, prefix)
  {
    if cmds == [] then []
    else if StartsWith(cmds[0], prefix) then [cmds[0]] + Matches(cmds[1..], prefix)
    else Matches(cmds[1..], prefix)
  }

  function CommandsFor(mode: string, cmds: Commands): seq<string>
  {
    if mode == "cyberpunk" then cmds.cyberpunk
    else if mode == "fallout" then cmds.fallout
    else cmds.os93
  }

  /** The text Tab completes: the input, lower-cased and trimmed. */
  function Prefix(input: string): string
  {
    Lower(Trim(input))
  }

  /** Tab: a single match is completed and the cycle reset; with several,
   *  a prefix other than the last one starts a new cycle at 0 and lists the
   *  matches, and each press writes the current match and advances the
   *  index modulo their number. */
  function TabPressed(c: Console, mode: string, cmds: Commands): (r: Press)
    ensures r.call == None && r.console.history == c.history && r.console.index == c.index
  {
    var cur := Prefix(c.input);
    var ms := Matches(CommandsFor(mode, cmds), cur);
    if cur == "" || |ms| == 0 then Press(c, None, None)
    else if |ms| == 1 then Press(c.(input := ms[0], tabIndex := 0, lastTab := ""), None, None)
    else
      var restart := c.lastTab != cur;
      var idx := if restart then 0 else c.tabIndex;
      Press(c.(input := At(ms, idx), tabIndex := (idx + 1) % |ms|, lastTab := cur),
            if restart then Some(ms) else None, None)
  }

  /** Tab without a non-empty prefix that has matches changes nothing. */
  lemma TabWithoutMatch(c: Console, mode: string, cmds: Commands)
    requires Prefix(c.input) == "" || |Matches(CommandsFor(mode, cmds), Prefix(c.input))| == 0
    ensures TabPressed(c, mode, cmds) == Press(c, None, None)
  {
  }

  /** A single match is written into the input and resets the cycle. */
  lemma TabSingleMatch(c: Console, mode: string, cmds: Commands)
    requires Prefix(c.input) != ""
    requires |Matches(CommandsFor(mode, cmds), Prefix(c.input))| == 1
    ensures var r := TabPressed(c, mode, cmds);
      r.console.input == Matches(CommandsFor(mode, cmds), Prefix(c.input))[0]
      && r.console.input in CommandsFor(mode, cmds) && StartsWith(r.console.input, Prefix(c.input))
      && r.console.tabIndex == 0 && r.console.lastTab == "" && r.listing == None
  {
    var ms := Matches(CommandsFor(mode, cmds), Prefix(c.input));
    assert ms[0] in ms;
  }

  /** With several matches the index stays below their number; a new
   *  prefix lists them and writes the first, a repeated one writes the
   *  match at the index the press started from. */
  lemma TabCycle(c: Console, mode: string, cmds: Commands)
    requires c.tabIndex >= 0 && Prefix(c.input) != ""
    requires |Matches(CommandsFor(mode, cmds), Prefix(c.input))| >= 2
    ensures var cur := Prefix(c.input);
      var ms := Matches(CommandsFor(mode, cmds), cur);
      var r := TabPressed(c, mode, cmds);
      0 <= r.console.tabIndex < |ms| && r.console.lastTab == cur
      && (r.listing.Some? <==> c.lastTab != cur)
      && (c.lastTab != cur ==> r.listing == Some(ms) && r.console.input == ms[0] && r.console.tabIndex == 1)
      && (c.lastTab == cur && c.tabIndex < |ms| ==>
            r.console.input == ms[c.tabIndex] && r.console.tabIndex == (c.tabIndex + 1) % |ms|)
  {
    var cur := Prefix(c.input);
    var ms := Matches(CommandsFor(mode, cmds), cur);
    var idx := if c.lastTab != cur then 0 else c.tabIndex;
    var r := TabPressed(c, mode, cmds);
    assert r.console == c.(input := At(ms, idx), tabIndex := (idx + 1) % |ms|, lastTab := cur);
    assert r.listing == if c.lastTab != cur then Some(ms) else None;
    ModBelow(1, |ms|);
  }

  lemma ModBelow(a: int, n: int)
    requires 0 <= a < n
    ensures a % n == a
  {
  }

  /** The completion replaces the input, so the next Tab sees the completed
   *  command as its prefix: for a command list of lower-case words without
   *  surrounding blanks, a press that wrote a match other than the prefix
   *  itself makes the next press start a new cycle, over matches that were
   *  all matches of the first prefix too. */
  lemma {:induction false} TabCompletionIsNewPrefix(c: Console, mode: string, cmds: Commands)
    requires c.tabIndex >= 0
    requires forall w :: w in CommandsFor(mode, cmds) ==> Prefix(w) == w
    requires |Matches(CommandsFor(mode, cmds), Prefix(c.input))| >= 2 && Prefix(c.input) != ""
    requires TabPressed(c, mode, cmds).console.input != Prefix(c.input)
    requires c.lastTab != Prefix(c.input) || c.tabIndex < |Matches(CommandsFor(mode, cmds), Prefix(c.input))|
    ensures var c1 := TabPressed(c, mode, cmds).console;
      c1.lastTab != Prefix(c1.input)
      && forall m :: m in Matches(CommandsFor(mode, cmds), Prefix(c1.input)) ==>
           m in Matches(CommandsFor(mode, cmds), Prefix(c.input))
  {
    var cmdList := CommandsFor(mode, cmds);
    var cur := Prefix(c.input);
    var ms := Matches(cmdList, cur);
    var c1 := TabPressed(c, mode, cmds).console;
    var w := c1.input;
    TabWritesMatch(c, mode, cmds);
    assert w in cmdList && StartsWith(w, cur);
    assert Prefix(w) == w;
    forall m | m in Matches(cmdList, w)
      ensures m in ms
    {
      PrefixTransitive(m, w, cur);
    }
  }

  /** With several matches, Tab writes one of them and remembers the prefix. */
  lemma TabWritesMatch(c: Console, mode: string, cmds: Commands)
    requires c.tabIndex >= 0 && Prefix(c.input) != ""
    requires |Matches(CommandsFor(mode, cmds), Prefix(c.input))| >= 2
    requires c.lastTab != Prefix(c.input) || c.tabIndex < |Matches(CommandsFor(mode, cmds), Prefix(c.input))|
    ensures var c1 := TabPressed(c, mode, cmds).console;
      c1.input in Matches(CommandsFor(mode, cmds), Prefix(c.input)) && c1.lastTab == Prefix(c.input)
  {
    var ms := Matches(CommandsFor(mode, cmds), Prefix(c.input));
    var idx := if c.lastTab != Prefix(c.input) then 0 else c.tabIndex;
    assert TabPressed(c, mode, cmds).console.input == ms[idx];
  }

  lemma PrefixTransitive(a: string, b: string, c: string)
    requires StartsWith(a, b) && StartsWith(b, c)
    ensures StartsWith(a, c)
  {
    assert a[..|c|] == a[..|b|][..|c|];
  }

  /** Any key other than Tab resets the completion cycle. */
  function ResetTab(c: Console): (r: Console)
    ensures r.lastTab == "" && r.tabIndex == 0
    ensures r.history == c.history && r.index == c.index && r.input == c.input
  {
    c.(lastTab := "", tabIndex := 0)
  }

  /** The `window` handler Enter calls in each mode. */
  function HandlerFor(mode: string): string
  {
    if mode == "cyberpunk" then "handleCyberpunkCommand"
    else if mode == "fallout" then "handleFalloutCommand"
    else "handleOS93Command"
  }

  /** The handlers `src/main.ts` registers on `window`. */
  const Registered: set<string> :=
    {"handleTerminalCommand", "handlePietrOSCommand", "handleCyberpunkCommand",
     "handleFalloutCommand", "resetTerminalSubModes"}

  /** One key press in the terminal's input box (`handleTerminalCommand`). */
  function Pressed(c: Console, mode: string, key: Key, cmds: Commands): (r: Press)
  {
    match key
    case ArrowUp => Press(Up(c), None, None)
    case ArrowDown => Press(Down(c), None, None)
    case Tab => TabPressed(c, mode, cmds)
    case Enter => Press(ResetTab(c), None, Some(Call(HandlerFor(mode), Trim(c.input))))
    case OtherKey => Press(ResetTab(c), None, None)
  }

  /** Only Enter calls a handler, with the trimmed input, and never touches
   *  the history; in the default personality the handler it names is one
   *  that `src/main.ts` never registers, so the call fails (`handlePietrOSCommand`
   *  is registered instead). */
  lemma EnterRoutes(c: Console, mode: string, key: Key, cmds: Commands)
    ensures var r := Pressed(c, mode, key, cmds);
      r.console.history == c.history
      && (r.call.Some? <==> key == Enter)
      && (key == Enter ==>
            (r.call.value.input == Trim(c.input) && r.console == ResetTab(c)
             && (r.call.value.handler in Registered <==> mode in {"cyberpunk", "fallout"})))
  {
    if key == Enter {
      var h := HandlerFor(mode);
      if mode != "cyberpunk" && mode != "fallout" {
        assert h == "handleOS93Command";
        assert |h| == 17;
      }
    }
  }

  /** The key handling never breaks the history-index range. */
  lemma PressKeepsIndex(c: Console, mode: string, key: Key, cmds: Commands)
    requires IndexOk(c)
    ensures IndexOk(Pressed(c, mode, key, cmds).console)
  {
    ArrowsKeepIndex(c);
  }

  /** The console as the shared state and the input box hold it. */
  function ConsoleOf(app: State.AppState, input: string): Console
    reads app
  {
    Console(app.terminalHistory, app.terminalHistoryIndex, app.tabCompletionIndex,
            app.lastTabInput, input)
  }

  /** `handleTerminalCommand`: each branch goes through the state setters
   *  and reads the shared variables back after setting them, as the live
   *  module bindings do; `shown` is the new text of the input box. */
  method HandleTerminalCommand(app: State.AppState, key: Key, input: string, cmds: Commands)
    returns (shown: string, listing: Option<seq<string>>, call: Option<Call>)
    modifies app`terminalHistoryIndex, app`tabCompletionIndex, app`lastTabInput
    ensures var p := Pressed(old(ConsoleOf(app, input)), old(app.terminal.mode), key, cmds);
      ConsoleOf(app, shown) == p.console && listing == p.listing && call == p.call
  {
    listing, call := None, None;
    if key == ArrowUp || key == ArrowDown {
      shown := PressArrow(app, key == ArrowUp, input);
      return;
    }
    if key == Tab {
      shown, listing := PressTab(app, input, cmds);
      return;
    }
    shown := input;
    app.SetLastTabInput("");
    app.SetTabCompletionIndex(0);
    if key == Enter {
      call := Some(Call(HandlerFor(app.terminal.mode), Trim(input)));
    }
  }

  /** ArrowUp (`up`) and ArrowDown: move through the history, newest first. */
  method PressArrow(app: State.AppState, up: bool, input: string) returns (shown: string)
    modifies app`terminalHistoryIndex
    ensures var c := old(ConsoleOf(app, input));
      ConsoleOf(app, shown) == (if up then Up(c) else Down(c))
  {
    shown := input;
    var h := app.terminalHistory;
    if up {
      if |h| > 0 && app.terminalHistoryIndex < |h| - 1 {
        app.SetTerminalHistoryIndex(app.terminalHistoryIndex + 1);
        shown := At(h, |h| - 1 - app.terminalHistoryIndex);
      }
    } else if app.terminalHistoryIndex > -1 {
      app.SetTerminalHistoryIndex(app.terminalHistoryIndex - 1);
      shown := if app.terminalHistoryIndex >= 0 then At(h, |h| - 1 - app.terminalHistoryIndex) else "";
    }
  }

  /** Tab: complete the command prefix, cycling through several matches. */
  method PressTab(app: State.AppState, input: string, cmds: Commands)
    returns (shown: string, listing: Option<seq<string>>)
    modifies app`tabCompletionIndex, app`lastTabInput
    ensures TabPressed(old(ConsoleOf(app, input)), app.terminal.mode, cmds)
      == Press(ConsoleOf(app, shown), listing, None)
  {
    shown, listing := input, None;
    ghost var c := ConsoleOf(app, input);
    var mode := app.terminal.mode;
    var cur := Prefix(input);
    var ms := Matches(CommandsFor(mode, cmds), cur);
    if cur == "" || |ms| == 0 {
      return;
    }
    if |ms| == 1 {
      shown := ms[0];
      app.SetTabCompletionIndex(0);
      app.SetLastTabInput("");
      assert ConsoleOf(app, shown) == c.(input := ms[0], tabIndex := 0, lastTab := "");
    } else {
      shown, listing := CycleTab(app, cur, ms);
    }
  }

  /** Tab with several matches: a new prefix restarts the cycle and lists
   *  the matches; the press writes the match at the index and advances it. */
  method CycleTab(app: State.AppState, cur: string, ms: seq<string>)
    returns (shown: string, listing: Option<seq<string>>)
    requires |ms| >= 2
    modifies app`tabCompletionIndex, app`lastTabInput
    ensures var restart := old(app.lastTabInput) != cur;
      var idx := if restart then 0 else old(app.tabCompletionIndex);
      shown == At(ms, idx) && app.tabCompletionIndex == (idx + 1) % |ms|
      && app.lastTabInput == cur && listing == (if restart then Some(ms) else None)
  {
    listing := None;
    if app.lastTabInput != cur {
      app.SetTabCompletionIndex(0);
      app.SetLastTabInput(cur);
      listing := Some(ms);
    }
    shown := At(ms, app.tabCompletionIndex);
    app.SetTabCompletionIndex((app.tabCompletionIndex + 1) % |ms|);
  }

  // ---------------------------------------------------------------------------
  // getTerminalPromptHTML, as plain text.

  /** The prompt in front of each echoed command. */
  function Prompt(t: State.TerminalState): string
  {
    if t.mode == "cyberpunk" then "V@NET_ARCH:~/subnets$"
    else if t.mode == "fallout" then "VAULT_DWELLER@PIPBOY >"
    else t.user + "@" + t.host + "~$"
  }

  /** The prompt follows the same mode test as the Enter route: the
   *  `user@host` prompt is shown exactly when Enter goes to the default
   *  handler, and the personality prompts do not depend on user or host. */
  lemma PromptFollowsMode(t: State.TerminalState, user: string, host: string)
    ensures HandlerFor(t.mode) == "handleOS93Command" <==> Prompt(t) == t.user + "@" + t.host + "~$"
    ensures t.mode in {"cyberpunk", "fallout"} ==> Prompt(t) == Prompt(t.(user := user, host := host))
  {
    var d := t.user + "@" + t.host + "~$";
    if t.mode == "cyberpunk" {
      assert Prompt(t)[|Prompt(t)| - 2] != d[|d| - 2];
    } else if t.mode == "fallout" {
      assert Prompt(t)[|Prompt(t)| - 1] != d[|d| - 1];
    }
  }

  /** The initial state's prompt reads `guest@OS93`. */
  lemma InitialPrompt()
    ensures StartsWith(Prompt(State.InitialTerminalState), "guest@OS93")
  {
  }
}
