/** The older command interpreter (`src/terminal/os93.js`). It runs the same
 *  command machine as pietrOS: the same sub-modes in the same order, the
 *  same history rule and the same file-system commands. It differs in five
 *  places that change behaviour:
 *  - `noclip` is not a command;
 *  - `flip` maps characters through a table of mis-encoded letters (Flip93);
 *  - `mkdir`, `touch` and `rmdir` index the current directory without
 *    checking that it resolved;
 *  - `open` indexes the window registry without checking that it was passed;
 *  - `quote` assigns to an imported binding when the list wraps around.
 *  The last three throw a TypeError part-way through the line. It also
 *  reads the prompt element without a null check where pietrOS guards
 *  it; while the prompt exists that reads the same. */
module Os93 {
  import opened Wrappers
  import opened Text
  import opened FsTree
  import opened PietrOS
  import TerminalCore
  import State

  /** How a line ends: normally, or with an exception, keeping the changes
   *  made before the throw. */
  datatype Step = Finished(o: Outcome) | Threw(s: Session)

  /** The `switch` of os93.js: the same cases as pietrOS except `noclip`,
   *  which falls through to "Command not found". */
  function VerbOf93(cmd: string): (v: Verb)
    ensures v != NoClip
    ensures v == MakeDir <==> cmd == "mkdir"
    ensures v == TouchFile <==> cmd == "touch"
    ensures v == RemoveDir <==> cmd == "rmdir"
    ensures v == OpenWindow <==> cmd == "open"
    ensures v == ShowQuote <==> cmd == "quote"
    ensures v == FlipCmd <==> cmd == "flip"
  {
    if cmd == "noclip" then Unknown else VerbOf(cmd)
  }

  /** The lines that throw: an edit with a name while the current directory
   *  does not resolve, `open` without a window registry, and `quote` on
   *  the last quote. */
  predicate Throws(s: Session, v: Verb, a: Option<string>, env: Env)
  {
    ((v == MakeDir || v == TouchFile || v == RemoveDir) && Truthy(a) && DirAt(s.fs, s.path).None?)
    || (v == OpenWindow && env.windows.None?)
    || (v == ShowQuote && s.quoteIndex + 1 >= |s.quotes|)
  }

  /** The standard commands of os93.js; `cmd` is the first space-separated
   *  word, lower-cased. */
  function Command93(s: Session, input: string, env: Env): Step
  {
    var args := Split(input, ' ');
    var cmd := Lower(args[0]);
    Step93(s, VerbOf93(cmd), args, cmd, env)
  }

  /** The case `v` of the `switch`: `flip` uses the table of os93.js, the
   *  other cases those of pietrOS. A throw leaves the session as it was,
   *  except that `quote` has already set the index back to 0. */
  function Step93(s: Session, v: Verb, args: seq<string>, cmd: string, env: Env): (st: Step)
    requires |args| >= 1
    ensures st.Threw? ==> st.s == s.(quoteIndex := st.s.quoteIndex)
    ensures st.Threw? && st.s.quoteIndex != s.quoteIndex ==> st.s.quoteIndex == 0
  {
    if v == FlipCmd then Finished(Outcome(s, Flipped(Flip93(FlipText(args)))))
    else if !Throws(s, v, Arg(args, 1), env) then Finished(Run(s, v, args, cmd, env))
    else if v == ShowQuote then Threw(s.(quoteIndex := 0))
    else Threw(s)
  }

  /** `handleOS93Command(input, …)`. */
  function Handled93(s: Session, input: string, env: Env): Step
  {
    if input == "" then Finished(Outcome(s, Quiet))
    else if s.guess.active then Finished(GuessTurn(s, input))
    else if s.cisco then Finished(CiscoTurn(s, input))
    else if s.terraform then Finished(TerraformTurn(s, input))
    else Command93(s.(history := s.history + [input], historyIndex := -1), input, env)
  }

  // ---------------------------------------------------------------------------
  // flip with the os93.js table

  /** `flipMap[c] || c` with the table of os93.js. Its entries hold the
   *  upside-down letters of pietrOS after their UTF-8 bytes were read back
   *  one byte per character (MisreadImage), so most of them are two or
   *  three characters long. */
  function Image93(c: char): (r: string)
    ensures 1 <= |r| <= 3
  {
    match c
    case 'a' => ['\U{C9}', '\U{90}']
    case 'b' => "q"
    case 'c' => ['\U{C9}', '\U{201D}']
    case 'd' => "p"
    case 'e' => ['\U{C7}', '\U{9D}']
    case 'f' => ['\U{C9}', '\U{178}']
    case 'g' => ['\U{C6}', '\U{192}']
    case 'h' => ['\U{C9}', '\U{A5}']
    case 'i' => ['\U{E1}', '\U{B4}', '\U{2030}']
    case 'j' => ['\U{C9}', '\U{BE}']
    case 'k' => ['\U{CA}', '\U{17E}']
    case 'l' => "l"
    case 'm' => ['\U{C9}', '\U{AF}']
    case 'n' => "u"
    case 'o' => "o"
    case 'p' => "d"
    case 'q' => "b"
    case 'r' => ['\U{C9}', '\U{B9}']
    case 's' => "s"
    case 't' => ['\U{CA}', '\U{2021}']
    case 'u' => "n"
    case 'v' => ['\U{CA}', '\U{152}']
    case 'w' => ['\U{CA}', '\U{8D}']
    case 'x' => "x"
    case 'y' => ['\U{CA}', '\U{17D}']
    case 'z' => "z"
    case 'A' => ['\U{E2}', '\U{2C6}', '\U{20AC}']
    case 'B' => "q"
    case 'C' => ['\U{C6}', '\U{2020}']
    case 'D' => "p"
    case 'E' => ['\U{C6}', '\U{17D}']
    case 'F' => ['\U{E2}', '\U{201E}', '\U{B2}']
    case 'G' => ['\U{E2}', '\U{2026}', '\U{81}']
    case 'H' => "H"
    case 'I' => "I"
    case 'J' => ['\U{C5}', '\U{BF}']
    case 'K' => ['\U{CA}', '\U{17E}']
    case 'L' => ['\U{CB}', '\U{A5}']
    case 'M' => "W"
    case 'N' => "N"
    case 'O' => "O"
    case 'P' => ['\U{D4}', '\U{20AC}']
    case 'Q' => "Q"
    case 'R' => ['\U{C9}', '\U{B9}']
    case 'S' => "S"
    case 'T' => ['\U{E2}', '\U{160}', '\U{A5}']
    case 'U' => ['\U{E2}', '\U{2C6}', '\U{A9}']
    case 'V' => ['\U{CE}', '\U{203A}']
    case 'W' => "M"
    case 'X' => "X"
    case 'Y' => ['\U{E2}', '\U{2026}', '\U{201E}']
    case 'Z' => "Z"
    case '1' => ['\U{C6}', '\U{2013}']
    case '2' => ['\U{E1}', '\U{201E}', '\U{2026}']
    case '3' => ['\U{C6}', '\U{90}']
    case '4' => ['\U{E3}', '\U{201E}', '\U{A3}']
    case '5' => ['\U{CF}', '\U{203A}']
    case '6' => "9"
    case '7' => ['\U{E3}', '\U{201E}', '\U{A5}']
    case '8' => "8"
    case '9' => "6"
    case '0' => "0"
    case '.' => ['\U{CB}', '\U{2122}']
    case ',' => "'"
    case '\'' => ","
    case '\"' => ['\U{E2}', '\U{20AC}', '\U{17E}']
    case '`' => ","
    case '?' => ['\U{C2}', '\U{BF}']
    case '!' => ['\U{C2}', '\U{A1}']
    case '[' => "]"
    case ']' => "["
    case '(' => ")"
    case ')' => "("
    case '{' => "}"
    case '}' => "{"
    case '<' => ">"
    case '>' => "<"
    case '_' => ['\U{E2}', '\U{20AC}', '\U{BE}']
    case '^' => "v"
    case '&' => ['\U{E2}', '\U{2026}', '\U{2039}']
    case _ => [c]
  }

  /** The UTF-8 encoding of one character (section 3 of RFC 3629). */
  function Utf8(c: char): (bytes: seq<int>)
    ensures 1 <= |bytes| <= 4
    ensures forall i :: 0 <= i < |bytes| ==> 0 <= bytes[i] < 256
    ensures |bytes| == 1 <==> c as int < 0x80
  {
    var v := c as int;
    if v < 0x80 then [v]
    else if v < 0x800 then [0xC0 + v / 0x40, 0x80 + v % 0x40]
    else if v < 0x1_0000 then [0xE0 + v / 0x1000, 0x80 + v / 0x40 % 0x40, 0x80 + v % 0x40]
    else [0xF0 + v / 0x4_0000, 0x80 + v / 0x1000 % 0x40, 0x80 + v / 0x40 % 0x40, 0x80 + v % 0x40]
  }

  /** One byte read as a Windows-1252 character; the five bytes that code
   *  page leaves unassigned (0x81, 0x8D, 0x8F, 0x90, 0x9D) stay the control
   *  character of the same number. */
  function Cp1252(b: int): (c: char)
    requires 0 <= b < 256
    ensures (b < 0x80 || b >= 0xA0) ==> c as int == b
  {
    match b
    case 0x80 => '\U{20AC}'
    case 0x82 => '\U{201A}'
    case 0x83 => '\U{192}'
    case 0x84 => '\U{201E}'
    case 0x85 => '\U{2026}'
    case 0x86 => '\U{2020}'
    case 0x87 => '\U{2021}'
    case 0x88 => '\U{2C6}'
    case 0x89 => '\U{2030}'
    case 0x8A => '\U{160}'
    case 0x8B => '\U{2039}'
    case 0x8C => '\U{152}'
    case 0x8E => '\U{17D}'
    case 0x91 => '\U{2018}'
    case 0x92 => '\U{2019}'
    case 0x93 => '\U{201C}'
    case 0x94 => '\U{201D}'
    case 0x95 => '\U{2022}'
    case 0x96 => '\U{2013}'
    case 0x97 => '\U{2014}'
    case 0x98 => '\U{2DC}'
    case 0x99 => '\U{2122}'
    case 0x9A => '\U{161}'
    case 0x9B => '\U{203A}'
    case 0x9C => '\U{153}'
    case 0x9E => '\U{17E}'
    case 0x9F => '\U{178}'
    case _ => b as char
  }

  /** A character's UTF-8 bytes, each read back as a Windows-1252 character. */
  function MisreadImage(c: char): (r: string)
    ensures |r| == |Utf8(c)|
    ensures c as int < 0x80 ==> r == [c]
  {
    var b := Utf8(c);
    if |b| == 1 then [Cp1252(b[0])]
    else if |b| == 2 then [Cp1252(b[0]), Cp1252(b[1])]
    else if |b| == 3 then [Cp1252(b[0]), Cp1252(b[1]), Cp1252(b[2])]
    else [Cp1252(b[0]), Cp1252(b[1]), Cp1252(b[2]), Cp1252(b[3])]
  }

  /** Each character mapped through the os93.js table, then the order
   *  reversed: the images of the characters are joined last one first. */
  function Flip93(s: string): (r: string)
    ensures |r| >= |s|
  {
    if s == [] then [] else Flip93(s[1..]) + Image93(s[0])
  }

  /** How the table came about, for two of its entries: the entry for "a"
   *  is the UTF-8 bytes C9 90 of pietrOS's U+0250 read back one character
   *  per byte, and the entry for "i" the bytes E1 B4 89 of U+1D09. */
  lemma Image93Misread()
    ensures Utf8(FlipChar('a')) == [0xC9, 0x90] && Image93('a') == MisreadImage(FlipChar('a'))
    ensures Utf8(FlipChar('i')) == [0xE1, 0xB4, 0x89] && Image93('i') == MisreadImage(FlipChar('i'))
  {
  }

  /** Where the os93.js entry is a single character it is pietrOS's letter. */
  lemma Image93Single(c: char)
    ensures |Image93(c)| == 1 ==> Image93(c) == [FlipChar(c)]
  {
  }

  /** Flipping a concatenation flips each part and swaps them. */
  lemma {:induction false} Flip93Append(a: string, b: string)
    ensures Flip93(a + b) == Flip93(b) + Flip93(a)
  {
    if a == [] {
      assert a + b == b;
    } else {
      var ab := a + b;
      assert ab[0] == a[0] && ab[1..] == a[1..] + b;
      calc {
        Flip93(ab);
        Flip93(a[1..] + b) + Image93(a[0]);
        { Flip93Append(a[1..], b); }
        (Flip93(b) + Flip93(a[1..])) + Image93(a[0]);
        Flip93(b) + (Flip93(a[1..]) + Image93(a[0]));
        Flip93(b) + Flip93(a);
      }
    }
  }

  /** A text all of whose table images are single characters: os93's flip
   *  and pietrOS's agree on it. */
  predicate SingleImages(s: string)
  {
    forall i :: 0 <= i < |s| ==> |Image93(s[i])| == 1
  }

  /** The flipped text is as long as the input exactly when every image is a
   *  single character, and it is pietrOS's flipped text exactly then. */
  lemma Flip93AgreesExactly(s: string)
    ensures Flip93(s) == Flip(s) <==> SingleImages(s)
  {
    Flip93Length(s);
    if Flip93(s) == Flip(s) {
      assert |Flip93(s)| == |s|;
    }
  }

  /** The length half of Flip93AgreesExactly, by induction. */
  lemma {:induction false} Flip93Length(s: string)
    ensures |Flip93(s)| == |s| <==> SingleImages(s)
    ensures SingleImages(s) ==> Flip93(s) == Flip(s)
  {
    if s != [] {
      Flip93Length(s[1..]);
      Image93Single(s[0]);
      assert Flip93(s) == Flip93(s[1..]) + Image93(s[0]);
      assert Flip(s) == Flip(s[1..]) + [FlipChar(s[0])];
      assert SingleImages(s) <==> |Image93(s[0])| == 1 && SingleImages(s[1..]) by {
        if |Image93(s[0])| == 1 && SingleImages(s[1..]) {
          forall i | 0 <= i < |s| ensures |Image93(s[i])| == 1 {
            if i > 0 { assert s[i] == s[1..][i - 1]; }
          }
        }
        if SingleImages(s) {
          forall i | 0 <= i < |s[1..]| ensures |Image93(s[1..][i])| == 1 {
            assert s[1..][i] == s[i + 1];
          }
        }
      }
    }
  }

  /** os93's `flip` prints something else than pietrOS's: "a" becomes the
   *  two characters U+00C9 U+0090 instead of U+0250. */
  lemma FlipDiffers()
    ensures Flip93("a") == ['\U{C9}', '\U{90}'] && Flip("a") == ['\U{250}']
    ensures Flip93("a") != Flip("a")
  {
    assert Flip93("a") == Flip93("a"[1..]) + Image93('a');
    assert Flip("a") == Flip("a"[1..]) + [FlipChar('a')];
  }

  // ---------------------------------------------------------------------------
  // Properties

  /** Empty lines and lines taken by a sub-mode never throw, and they are
   *  handled exactly as pietrOS handles them: sub-mode lines are not pushed
   *  to the history and the modes are tried in the order guess, cisco,
   *  terraform. */
  lemma SubModesAgree(s: Session, input: string, env: Env)
    requires input == "" || s.guess.active || s.cisco || s.terraform
    ensures Handled93(s, input, env) == Finished(Handled(s, input, env))
  {
  }

  /** A standard command (run on the session with the line already pushed
   *  to the history) throws exactly in the three unguarded cases, and a
   *  throw keeps every change made before it: the history push, and for
   *  `quote` the index set back to 0. */
  lemma ThrowsExactly(s: Session, input: string, env: Env)
    ensures var args := Split(input, ' ');
      var cmd := Lower(args[0]);
      var st := Command93(s, input, env);
      (st.Threw? <==>
         (cmd in {"mkdir", "touch", "rmdir"} && Truthy(Arg(args, 1)) && DirAt(s.fs, s.path).None?)
         || (cmd == "open" && env.windows.None?)
         || (cmd == "quote" && s.quoteIndex + 1 >= |s.quotes|))
      && (st.Threw? ==> st.s == s.(quoteIndex := if cmd == "quote" then 0 else s.quoteIndex))
  {
    var args := Split(input, ' ');
    var cmd := Lower(args[0]);
    var v := VerbOf93(cmd);
    assert Command93(s, input, env) == Step93(s, v, args, cmd, env);
  }

  /** Every line that does not throw, other than `noclip` and `flip`, has
   *  the same effect and output as in pietrOS: `cd`, `ls` and `cat`
   *  included, so "/home" is again the highest reachable path. */
  lemma AgreesWithPietrOS(s: Session, input: string, env: Env)
    requires Handled93(s, input, env).Finished?
    requires input == "" || Lower(Split(input, ' ')[0]) !in {"noclip", "flip"}
    ensures Handled93(s, input, env).o == Handled(s, input, env)
  {
    if input != "" && !s.guess.active && !s.cisco && !s.terraform {
      var pushed := s.(history := s.history + [input], historyIndex := -1);
      var args := Split(input, ' ');
      var cmd := Lower(args[0]);
      assert VerbOf93(cmd) == VerbOf(cmd) != FlipCmd;
      assert Handled93(s, input, env) == Step93(pushed, VerbOf(cmd), args, cmd, env);
      assert Handled(s, input, env) == Run(pushed, VerbOf(cmd), args, cmd, env);
    }
  }

  /** A `flip` line is pushed to the history and prints the os93.js
   *  flipped text, which is pietrOS's output exactly when every character
   *  of the text has a single-character image. */
  lemma FlipLine(s: Session, input: string, env: Env)
    requires input != "" && !s.guess.active && !s.cisco && !s.terraform
    requires Lower(Split(input, ' ')[0]) == "flip"
    ensures var args := Split(input, ' ');
      var pushed := s.(history := s.history + [input], historyIndex := -1);
      Handled93(s, input, env) == Finished(Outcome(pushed, Flipped(Flip93(FlipText(args)))))
      && (Handled93(s, input, env).o == Handled(s, input, env) <==> SingleImages(FlipText(args)))
  {
    FlipLine93(s, input, env);
    FlipLinePietrOS(s, input, env);
    Flip93AgreesExactly(FlipText(Split(input, ' ')));
  }

  /** The os93.js half of FlipLine. */
  lemma FlipLine93(s: Session, input: string, env: Env)
    requires input != "" && !s.guess.active && !s.cisco && !s.terraform
    requires Lower(Split(input, ' ')[0]) == "flip"
    ensures Handled93(s, input, env)
      == Finished(Outcome(s.(history := s.history + [input], historyIndex := -1),
                          Flipped(Flip93(FlipText(Split(input, ' '))))))
  {
  }

  /** The pietrOS half of FlipLine. */
  lemma FlipLinePietrOS(s: Session, input: string, env: Env)
    requires input != "" && !s.guess.active && !s.cisco && !s.terraform
    requires Lower(Split(input, ' ')[0]) == "flip"
    ensures Handled(s, input, env)
      == Outcome(s.(history := s.history + [input], historyIndex := -1), Flipped(Flip(FlipText(Split(input, ' ')))))
  {
  }

  /** `noclip` is an unknown command here: a line whose command word is
   *  "noclip" reaches the default case. */
  lemma NoClipUnknown(s: Session, args: seq<string>, env: Env)
    requires |args| >= 1
    ensures VerbOf("noclip") == NoClip
    ensures Step93(s, VerbOf93("noclip"), args, "noclip", env) == Finished(Outcome(s, NotFound("noclip")))
  {
    assert VerbOf93("noclip") == Unknown;
  }

  /** `quote` throws exactly on the last quote of the list, after setting the
   *  index back to 0, so the index stays in range but that quote is never
   *  printed. */
  lemma QuoteThrowsAtEnd(s: Session, args: seq<string>, env: Env)
    requires |args| >= 1
    requires 0 <= s.quoteIndex < |s.quotes|
    ensures var st := Step93(s, VerbOf93("quote"), args, "quote", env);
      (st.Threw? <==> s.quoteIndex == |s.quotes| - 1)
      && (st.Threw? ==> st.s == s.(quoteIndex := 0))
      && (st.Finished? ==>
            st.o == Outcome(s.(quoteIndex := s.quoteIndex + 1), QuoteShown(s.quotes[s.quoteIndex])))
  {
    assert VerbOf93("quote") == ShowQuote;
  }

  /** Thrown or not, a line keeps the path home-rooted and the tree a
   *  directory. */
  lemma Handled93KeepsInvariant(s: Session, input: string, env: Env)
    requires HomeRooted(s.path) && s.fs.Dir?
    ensures var st := Handled93(s, input, env);
      var after := if st.Finished? then st.o.session else st.s;
      HomeRooted(after.path) && after.fs.Dir?
  {
    var st := Handled93(s, input, env);
    if st.Finished? && (input == "" || Lower(Split(input, ' ')[0]) !in {"noclip", "flip"}) {
      AgreesWithPietrOS(s, input, env);
      HandledKeepsInvariant(s, input, env);
    }
  }

  // ---------------------------------------------------------------------------
  // The handler, step by step

  /** The state after a line and what it printed; `None` stands for a
   *  thrown exception. */
  function StepOf(s: Session, reply: Option<Reply>): Step
  {
    if reply.Some? then Finished(Outcome(s, reply.value)) else Threw(s)
  }

  /** `handleOS93Command`, run on the module variables of os93.js, which
   *  have the same shape as those of pietrOS. */
  method Handle(sh: Shell, app: State.AppState, input: string, env: Env) returns (reply: Option<Reply>)
    requires sh.Valid()
    modifies sh, app`terminalHistory, app`terminalHistoryIndex, app`terminal, app`quoteIndex
    ensures sh.Valid()
    ensures StepOf(sh.SessionOf(app), reply) == Handled93(old(sh.SessionOf(app)), input, env)
  {
    ghost var before := sh.SessionOf(app);
    reply := Line(sh, app, input, env);
    Handled93KeepsInvariant(before, input, env);
  }

  /** One line: echo, the sub-modes in order, then the history and the
   *  standard commands. */
  method Line(sh: Shell, app: State.AppState, input: string, env: Env) returns (reply: Option<Reply>)
    modifies sh, app`terminalHistory, app`terminalHistoryIndex, app`terminal, app`quoteIndex
    ensures StepOf(sh.SessionOf(app), reply) == Handled93(old(sh.SessionOf(app)), input, env)
  {
    if input == "" {
      return Some(Quiet);
    }
    if sh.guess.active {
      var r := sh.GuessLine(app, input);
      return Some(r);
    }
    if sh.cisco {
      var r := sh.CiscoLine(app, input);
      return Some(r);
    }
    if sh.terraform {
      var r := sh.TerraformLine(app, input);
      return Some(r);
    }
    app.PushTerminalHistory(input);
    app.SetTerminalHistoryIndex(-1);
    reply := StandardCommand(sh, app, input, env);
  }

  /** The `switch` of os93.js. */
  method StandardCommand(sh: Shell, app: State.AppState, input: string, env: Env) returns (reply: Option<Reply>)
    modifies sh`fs, sh`currentPath, sh`guess, sh`cisco, sh`terraform, app`terminal, app`quoteIndex
    ensures StepOf(sh.SessionOf(app), reply) == Command93(old(sh.SessionOf(app)), input, env)
  {
    var args := Split(input, ' ');
    var cmd := Lower(args[0]);
    reply := Case93(sh, app, VerbOf93(cmd), args, cmd, env);
  }

  /** One case of the `switch`, with its three unguarded reads and its own
   *  `flip` table. */
  method Case93(sh: Shell, app: State.AppState, v: Verb, args: seq<string>, cmd: string, env: Env)
    returns (reply: Option<Reply>)
    requires |args| >= 1
    modifies sh`fs, sh`currentPath, sh`guess, sh`cisco, sh`terraform, app`terminal, app`quoteIndex
    ensures StepOf(sh.SessionOf(app), reply) == Step93(old(sh.SessionOf(app)), v, args, cmd, env)
  {
    if v == FlipCmd {
      return Some(Flipped(Flip93(FlipText(args))));
    }
    var a := Arg(args, 1);
    if (v == MakeDir || v == TouchFile || v == RemoveDir) && Truthy(a) {
      var node := TerminalCore.ResolvePath(sh.fs, sh.currentPath);
      if node.None? || !node.value.Dir? {
        return None;
      }
    }
    if v == OpenWindow && env.windows.None? {
      return None;
    }
    if v == ShowQuote {
      reply := NextQuote93(app);
      return;
    }
    var r := sh.Dispatch(app, v, args, cmd, env);
    reply := Some(r);
  }

  /** `quote` in os93.js: after the index is set back to 0 the assignment to
   *  the imported quote list throws, before the quote is printed. */
  method NextQuote93(app: State.AppState) returns (reply: Option<Reply>)
    modifies app`quoteIndex
    ensures app.quoteIndex == (if old(app.quoteIndex) + 1 >= |app.shuffledQuotes| then 0 else old(app.quoteIndex) + 1)
    ensures reply.None? <==> old(app.quoteIndex) + 1 >= |app.shuffledQuotes|
    ensures reply.Some? ==> reply.value == QuoteShown(TerminalCore.At(app.shuffledQuotes, old(app.quoteIndex)))
  {
    var q := TerminalCore.At(app.shuffledQuotes, app.quoteIndex);
    app.SetQuoteIndex(app.quoteIndex + 1);
    if app.quoteIndex >= |app.shuffledQuotes| {
      app.SetQuoteIndex(0);
      return None;
    }
    reply := Some(QuoteShown(q));
  }

  // ---------------------------------------------------------------------------
  // quote as evidently intended

  /** `quote` with the wrap-around done through the shared state: the
   *  current quote is printed, the index advances, and after the last
   *  quote it goes back to 0 and the shared list is replaced by a fresh
   *  shuffle of the constant quotes (`picks` are the random draws). */
  function QuoteFixed(s: Session, picks: seq<nat>): (o: Outcome)
    requires |picks| == |State.Quotes|
    ensures o.session == s.(quoteIndex := o.session.quoteIndex, quotes := o.session.quotes)
  {
    var q := TerminalCore.At(s.quotes, s.quoteIndex);
    var i := s.quoteIndex + 1;
    if i >= |s.quotes| then
      Outcome(s.(quoteIndex := 0, quotes := State.Shuffled(State.Quotes, picks)), QuoteShown(q))
    else Outcome(s.(quoteIndex := i), QuoteShown(q))
  }

  /** The corrected `quote` prints every quote, the last one included; it
   *  wraps exactly on the last quote, and then the index is 0 and the list
   *  is a reordering of the constant quotes. */
  lemma QuoteFixedFacts(s: Session, picks: seq<nat>)
    requires |picks| == |State.Quotes|
    requires 0 <= s.quoteIndex < |s.quotes|
    ensures var o := QuoteFixed(s, picks);
      o.reply == QuoteShown(s.quotes[s.quoteIndex])
      && (s.quoteIndex == |s.quotes| - 1 ==>
            o.session.quoteIndex == 0 && multiset(o.session.quotes) == multiset(State.Quotes))
      && (s.quoteIndex < |s.quotes| - 1 ==> o.session == s.(quoteIndex := s.quoteIndex + 1))
  {
    State.ShuffledIsPermutation(State.Quotes, picks);
  }

  /** Before the last quote the corrected `quote` does what os93.js does;
   *  only the last quote, where os93.js throws, is handled differently. */
  lemma QuoteFixedAgrees(s: Session, args: seq<string>, env: Env, picks: seq<nat>)
    requires |args| >= 1 && |picks| == |State.Quotes|
    requires 0 <= s.quoteIndex < |s.quotes|
    ensures Step93(s, VerbOf93("quote"), args, "quote", env) == Finished(QuoteFixed(s, picks))
      <==> s.quoteIndex < |s.quotes| - 1
  {
    assert VerbOf93("quote") == ShowQuote;
  }

  /** The corrected `quote` on the module variables: the reshuffle goes
   *  through the shared state's setter. */
  method NextQuoteFixed(sh: Shell, app: State.AppState, picks: seq<nat>) returns (reply: Reply)
    requires |picks| == |State.Quotes|
    modifies app`quoteIndex, app`shuffledQuotes
    ensures Outcome(sh.SessionOf(app), reply) == QuoteFixed(old(sh.SessionOf(app)), picks)
  {
    var q := TerminalCore.At(app.shuffledQuotes, app.quoteIndex);
    app.SetQuoteIndex(app.quoteIndex + 1);
    if app.quoteIndex >= |app.shuffledQuotes| {
      app.SetQuoteIndex(0);
      app.ReshuffleQuotes(picks);
    }
    reply := QuoteShown(q);
  }
}
