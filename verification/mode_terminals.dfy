/** The two themed terminal personalities: the netrunner console
 *  (`src/terminal/cyberpunk.js`) and the RobCo console
 *  (`src/terminal/fallout.ts`). Each echoes the line, pushes a non-empty line
 *  to the shared history, answers a handful of fixed commands and, on
 *  `exit`/`disconnect`, hands the terminal back to the default mode by
 *  writing `mode` and `user` of `TERMINAL_STATE`. What they print is reduced
 *  to a `Reply` tag; the timed follow-up lines of `scan` and `breach` and
 *  every window-class change are left out. */
module ModeTerminals {
  import opened Wrappers
  import opened Text
  import State
  import TerminalCore

  /** The shared state the two handlers read and write: the command history,
   *  its cursor and the mode record. */
  datatype Console = Console(history: seq<string>, historyIndex: int, terminal: State.TerminalState)

  /** What a line prints, by command. */
  datatype Reply =
    | Echoed
    | Help
    | Scanning
    | Breaching(target: string)
    | Daemons
    | Stats
    | Inventory
    | Radio
    | Goodbye
    | Unrecognized(cmd: string)

  /** How a line ends: normally, or with an exception that keeps the changes
   *  made before it. */
  datatype Step = Done(c: Console, reply: Reply) | Threw(c: Console)

  /** The line recorded in the history and the cursor reset. */
  function Pushed(c: Console, input: string): Console
  {
    c.(history := c.history + [input], historyIndex := -1)
  }

  predicate IsExit(cmd: string)
  {
    cmd == "disconnect" || cmd == "exit"
  }

  /** The mode record after leaving a personality: the default mode and the
   *  default user, the host kept. */
  function Leave(t: State.TerminalState): State.TerminalState
  {
    t.(mode := "os93", user := "guest")
  }

  /** The command word of a line: its first space-separated piece, lower-cased. */
  function CommandWord(input: string): string
  {
    Lower(Split(input, ' ')[0])
  }

  // ---------------------------------------------------------------------------
  // The netrunner console

  /** `handleCyberpunkCommand(input, …)`; `window` says whether the element
   *  "win-terminal" exists. The exit branch dereferences it unguarded, so
   *  without it the line throws after the history push and before the mode
   *  record is touched. */
  function Cyberpunk(c: Console, input: string, window: bool): (st: Step)
    ensures input == "" ==> st == Done(c, Echoed)
    ensures input != "" ==> st.c.history == c.history + [input] && st.c.historyIndex == -1
    ensures st.Threw? <==> input != "" && IsExit(CommandWord(input)) && !window
    ensures st.c.terminal != c.terminal ==> input != "" && IsExit(CommandWord(input)) && window
    ensures input != "" && IsExit(CommandWord(input)) && window ==> st == Done(Pushed(c, input).(terminal := Leave(c.terminal)), Goodbye)
    ensures st.Done? && st.reply.Breaching? ==> st.reply.target != ""
  {
    if input == "" then Done(c, Echoed)
    else
      var args := Split(input, ' ');
      CyberpunkCase(Pushed(c, input), Lower(args[0]), args, window)
  }

  /** The `switch` of the netrunner console; `breach` falls back to the
   *  target "unknown" when the second word is missing or empty. */
  function CyberpunkCase(c: Console, cmd: string, args: seq<string>, window: bool): Step
    requires |args| >= 1
  {
    if cmd == "help" then Done(c, Help)
    else if cmd == "scan" then Done(c, Scanning)
    else if cmd == "breach" then Done(c, Breaching(if |args| > 1 && args[1] != "" then args[1] else "unknown"))
    else if cmd == "daemons" then Done(c, Daemons)
    else if IsExit(cmd) then
      if window then Done(c.(terminal := Leave(c.terminal)), Goodbye) else Threw(c)
    else Done(c, Unrecognized(cmd))
  }

  // ---------------------------------------------------------------------------
  // The RobCo console

  /** `handleFalloutCommand(input, …)`: never throws, since every window
   *  update is guarded; `exit` always leaves the personality. */
  function Fallout(c: Console, input: string): (st: Step)
    ensures st.Done?
    ensures input == "" ==> st == Done(c, Echoed)
    ensures input != "" ==> st.c.history == c.history + [input] && st.c.historyIndex == -1
    ensures st.c.terminal != c.terminal ==> input != "" && IsExit(CommandWord(input))
    ensures input != "" && IsExit(CommandWord(input)) ==> st == Done(Pushed(c, input).(terminal := Leave(c.terminal)), Goodbye)
  {
    if input == "" then Done(c, Echoed)
    else
      var args := Split(input, ' ');
      FalloutCase(Pushed(c, input), Lower(args[0]))
  }

  /** The `switch` of the RobCo console. */
  function FalloutCase(c: Console, cmd: string): Step
  {
    if cmd == "help" then Done(c, Help)
    else if cmd == "stats" then Done(c, Stats)
    else if cmd == "inv" then Done(c, Inventory)
    else if cmd == "radio" then Done(c, Radio)
    else if IsExit(cmd) then Done(c.(terminal := Leave(c.terminal)), Goodbye)
    else Done(c, Unrecognized(cmd))
  }

  // ---------------------------------------------------------------------------
  // Properties

  /** A line that leaves either personality makes the next Enter go to the
   *  default route, `handleOS93Command`, which is not among the handlers
   *  registered on `window`; the prompt becomes `guest@<host>~$`. */
  lemma LeavingRoutesToDefault(c: Console, input: string, window: bool)
    requires input != "" && IsExit(CommandWord(input))
    ensures var st := Cyberpunk(c, input, window);
      st.Done? ==>
        TerminalCore.HandlerFor(st.c.terminal.mode) !in TerminalCore.Registered
        && TerminalCore.Prompt(st.c.terminal) == "guest@" + c.terminal.host + "~$"
    ensures var st := Fallout(c, input);
      TerminalCore.HandlerFor(st.c.terminal.mode) !in TerminalCore.Registered
      && TerminalCore.Prompt(st.c.terminal) == "guest@" + c.terminal.host + "~$"
  {
    assert TerminalCore.HandlerFor("os93") == "handleOS93Command";
  }

  /** The only state a line of either personality changes besides the
   *  history is the mode record, and only by leaving: a console already in
   *  the default mode as user "guest" keeps its mode record whatever the
   *  line. */
  lemma LeavingIsIdempotent(c: Console, input: string, window: bool)
    requires c.terminal.mode == "os93" && c.terminal.user == "guest"
    ensures Cyberpunk(c, input, window).c.terminal == c.terminal
    ensures Fallout(c, input).c.terminal == c.terminal
  {
    assert Leave(c.terminal) == c.terminal;
  }

  // ---------------------------------------------------------------------------
  // The handlers, on the shared module state

  function ConsoleOf(app: State.AppState): Console
    reads app
  {
    Console(app.terminalHistory, app.terminalHistoryIndex, app.terminal)
  }

  /** The state after a line and what it printed; `None` stands for a thrown
   *  exception. */
  function StepOf(c: Console, reply: Option<Reply>): Step
  {
    if reply.Some? then Done(c, reply.value) else Threw(c)
  }

  /** `handleCyberpunkCommand`, through the setters of the shared state. */
  method HandleCyberpunk(app: State.AppState, input: string, window: bool) returns (reply: Option<Reply>)
    modifies app`terminalHistory, app`terminalHistoryIndex, app`terminal
    ensures StepOf(ConsoleOf(app), reply) == Cyberpunk(old(ConsoleOf(app)), input, window)
  {
    if input == "" {
      return Some(Echoed);
    }
    app.PushTerminalHistory(input);
    app.SetTerminalHistoryIndex(-1);
    var args := Split(input, ' ');
    var cmd := Lower(args[0]);
    if cmd == "help" {
      reply := Some(Help);
    } else if cmd == "scan" {
      reply := Some(Scanning);
    } else if cmd == "breach" {
      var target := if |args| > 1 && args[1] != "" then args[1] else "unknown";
      reply := Some(Breaching(target));
    } else if cmd == "daemons" {
      reply := Some(Daemons);
    } else if cmd == "disconnect" || cmd == "exit" {
      if !window {
        return None;
      }
      app.terminal := app.terminal.(mode := "os93");
      app.terminal := app.terminal.(user := "guest");
      reply := Some(Goodbye);
    } else {
      reply := Some(Unrecognized(cmd));
    }
  }

  /** `handleFalloutCommand`, through the setters of the shared state. */
  method HandleFallout(app: State.AppState, input: string) returns (reply: Reply)
    modifies app`terminalHistory, app`terminalHistoryIndex, app`terminal
    ensures Done(ConsoleOf(app), reply) == Fallout(old(ConsoleOf(app)), input)
  {
    if input == "" {
      return Echoed;
    }
    app.PushTerminalHistory(input);
    app.SetTerminalHistoryIndex(-1);
    var args := Split(input, ' ');
    var cmd := Lower(args[0]);
    if cmd == "help" {
      reply := Help;
    } else if cmd == "stats" {
      reply := Stats;
    } else if cmd == "inv" {
      reply := Inventory;
    } else if cmd == "radio" {
      reply := Radio;
    } else if cmd == "exit" || cmd == "disconnect" {
      app.terminal := app.terminal.(mode := "os93");
      app.terminal := app.terminal.(user := "guest");
      reply := Goodbye;
    } else {
      reply := Unrecognized(cmd);
    }
  }
}
