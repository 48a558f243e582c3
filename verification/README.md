# pietrOS rule logic in Dafny

pietrOS is a portfolio site that runs in the browser as a desktop. It has
windows, a dock, a Finder, a launcher and a search box. It also has a
terminal with several personalities and a handful of games. Two Python
scripts prepare its icons. Most of its code draws things. This project
models the rules underneath: the game engines, the terminal's command
machine and virtual file system, the two text parsers of the network and
infrastructure apps, the window geometry and navigation of the desktop, the
vault lookup and the two icon scripts. It proves properties of each model.

One Dafny module covers one source file, or a pair of twin files:

| module | source |
|---|---|
| `Wrappers`, `Text` | Option/Result types and the ASCII string operations the sources use: lower/upper case, trim, split, join, `includes`, `startsWith`, `parseInt` |
| `State` | `src/state.ts` and its JavaScript copy `src/state.js`: the shared counters, setters and the Fisher–Yates shuffle |
| `Vault` | `src/vault.ts` |
| `FixSvg`, `Base64` | `scripts/fix_svg_background.py`, and the base64 encoding of section 4 of RFC 4648 with its decoder |
| `CheckTransparency` | `scripts/check_transparency.py` |
| `FsTree`, `TerminalCore` | the virtual file tree and `src/terminal/core.ts` |
| `ModeTerminals` | `src/terminal/cyberpunk.js` and `src/terminal/fallout.ts` |
| `PietrOS`, `Os93` | `src/terminal/pietros.ts` and its older twin `src/terminal/os93.js` |
| `Snake`, `Threes`, `Game2048`, `TicTacToe` | the games of the same names under `src/games/` |
| `TetrisBoard`, `TetrisCanvas`, `TetrisReact` | the shared Tetris rules, the canvas game `src/games/tetris.ts` and the React component `tetris.ts` |
| `WindowGeometry`, `WindowManager`, `WindowManagerJs` | `src/windows/manager.ts` and `src/windows/manager.js` |
| `Finder`, `Desktop` | the Finder, wallpaper, launcher, search, window placement and clock of `src/main.ts` |
| `NetworkTopology`, `IacVisualizer` | `src/apps/network-topology.ts` and `src/apps/iac-visualizer.ts` |

Code that changes state step by step is a `class` whose fields are the
source's variables. Such a class has a function that reads those fields as
one value. Each method is proved to leave that value equal to a function of
the old value. The lemmas state what the source promises about those
functions. Pure code is functions and lemmas. Randomness, the clock, the
viewport size and the decoded image are parameters. A JavaScript exception
is an outcome of its own, such as `None`, `Crash` or `Threw`. Where the
repository's tests and the code disagree, the model follows the code. For
example, `src/state.test.ts` expects the terminal mode "pietros", but
`src/state.ts` sets "os93".

`src/terminal/os93.js` runs the same command machine as
`src/terminal/pietros.ts` and differs from it in five places that change
behaviour. It has no
`noclip` command. Its `flip` table holds mis-encoded letters: the UTF-8 bytes
of the turned letters read back as Windows-1252. `mkdir`, `touch` and `rmdir`
index the current directory without checking that it resolved. `open`
indexes the window registry without checking that it was passed. `quote`
assigns to an imported binding when the list wraps around. The last three
throw part-way through the line, and the model keeps what changed before the
throw. Beyond these, `src/terminal/os93.js:59-66` and `:248-252` read the
prompt element without the null checks of `src/terminal/pietros.ts:64` and
`:226-229`; while the prompt element exists, that changes nothing.

## Model

| member | source | states |
|---|---|---|
| State.SwapAt | src/state.ts:61 | the destructuring swap exchanges `arr[i]` and `arr[j]` and leaves every other slot as it was |
| State.ShuffleFrom | src/state.ts:59-62 | the shuffle loop, run from index `i` down to 1, keeps the length |
| State.Shuffled | src/state.ts:58-64 | the order `shuffleArray` leaves its argument in for given draws keeps the length |
| State.SwapAtPermutes | src/state.ts:61 | one swap is a permutation (same multiset) |
| State.ShuffleFromPermutes | src/state.ts:59-62 | every suffix of the loop is a permutation of what it starts from |
| State.ShuffledIsPermutation | src/state.ts:58-64 | `shuffleArray` returns a permutation of its input, whatever the random draws |
| State.ShuffledShort | src/state.ts:59 | empty and one-element arrays come back unchanged (the loop body never runs) |
| State.ShuffleArray | src/state.ts:58-64 | swaps in place, returns the same array object, and leaves it in the shuffled order, a permutation of its old contents |
| State.AppState.constructor | src/state.ts:7-78 | initial values: z-index counter 100, wallpaper 0, no monitor, path "/home/guest", empty history at index -1, quotes a shuffle of the constant list with index 0, terminal mode "os93", user "guest", host "OS93", tab state 0 and "" |
| State.AppState.IncrementZIndex | src/state.ts:81-83 | pre-increment: the counter grows by one and the returned value is the new, strictly larger counter |
| State.AppState.SetActiveWallpaperIndex | src/state.ts:85-87 | assigns only the wallpaper index |
| State.AppState.SetMonitorInterval | src/state.ts:89-91 | assigns only the monitor interval |
| State.AppState.SetCurrentPath | src/state.ts:93-95 | assigns only the terminal path |
| State.AppState.SetTerminalHistoryIndex | src/state.ts:97-99 | assigns only the history cursor |
| State.AppState.PushTerminalHistory | src/state.ts:101-103 | appends exactly one entry at the end of the history |
| State.AppState.SetQuoteIndex | src/state.ts:105-107 | assigns only the quote index |
| State.AppState.ReshuffleQuotes | src/state.ts:109-111 | replaces the shuffled list with a fresh permutation of the constant quotes |
| State.AppState.ShuffleQuotes | src/state.ts:66 | shuffling a copy of the quotes yields a permutation of them and leaves the constant list untouched |
| State.AppState.SetTabCompletionIndex | src/state.ts:113-115 | assigns only the tab-completion index |
| State.AppState.SetLastTabInput | src/state.ts:117-119 | assigns only the last tab input |
| Vault.Lookup | src/vault.ts:20-21 | a key lookup finds something exactly when an entry has that key, and what it finds is stored under that key |
| Vault.FirstEndingWith | src/vault.ts:26 | `find` returns the first key, in key order, ending with the suffix, and nothing exactly when no key ends with it |
| Vault.FullKeyFirst | src/vault.ts:17-22 | a non-empty entry under "../vault/<filename>" is returned as is |
| Vault.LookupUnique | src/vault.ts:20-21 | with distinct keys, a lookup returns the content stored with the key |
| Vault.SuffixFallback | src/vault.ts:24-29 | when the full key is missing or empty, the first key ending with "/<filename>" is used, even if its content is empty |
| Vault.NotFoundExactly | src/vault.ts:31-32 | `null` is returned exactly when no key ends with "/<filename>" |
| Vault.GetVaultContent | src/vault.ts:14-33 | defines `getVaultContent`: the full key when its content is non-empty, else the first key ending with "/<filename>", else nothing; FullKeyFirst, SuffixFallback and NotFoundExactly state these cases |
| FixSvg.RemoveAll | scripts/fix_svg_background.py:19 | `str.replace(pat, "")` never lengthens the text |
| FixSvg.Convert | scripts/fix_svg_background.py:17-51 | one entry: skipped exactly when it is not a ".png" name or its base name contains "removebg"; otherwise "<base_name>.svg" is written when the image opened and read, and the failure is reported when it raised |
| FixSvg.ConvertPngToSvg | scripts/fix_svg_background.py:9-51 | a missing directory does nothing; otherwise the loop's actions are those of the entries in listing order |
| FixSvg.PlainPrefix | scripts/fix_svg_background.py:19 | text without a dot passes through the replace unchanged |
| FixSvg.DropsOccurrence | scripts/fix_svg_background.py:19 | an occurrence of ".png" is dropped wherever it stands |
| FixSvg.BaseNameRemovesEveryOccurrence | scripts/fix_svg_background.py:19 | every ".png" is removed, not only the suffix ("a.pngb.png" gives "ab"); a single trailing ".png" is just dropped |
| FixSvg.PayloadRoundTrip | scripts/fix_svg_background.py:35-43 | the data-URI payload of the SVG decodes to exactly the file's bytes |
| FixSvg.SvgDeterminesBytes | scripts/fix_svg_background.py:33-43 | the SVG depends only on the size and the bytes, and for one size it determines the bytes |
| FixSvg.ActionsAppend | scripts/fix_svg_background.py:17-51 | each entry is handled on its own, so a failure never stops the loop |
| Base64.Alphabet | scripts/fix_svg_background.py:37 | the section 4 alphabet of RFC 4648 never yields the pad character |
| Base64.SextetOf | scripts/fix_svg_background.py:37 | reading a character back gives the sextet that encodes to it |
| Base64.SextetOfAlphabet | scripts/fix_svg_background.py:37 | each alphabet character stands for exactly one sextet |
| Base64.Encode | scripts/fix_svg_background.py:37 | `b64encode` yields four characters per started group of three bytes, with padding only in the last two places |
| Base64.DecodeGroup | scripts/fix_svg_background.py:37 | a group of four characters decodes to one to three bytes |
| Base64.QuadRoundTrip | scripts/fix_svg_background.py:37 | three bytes survive a full group |
| Base64.OneRoundTrip | scripts/fix_svg_background.py:37 | a final single byte survives its "xx==" group |
| Base64.TwoRoundTrip | scripts/fix_svg_background.py:37 | two final bytes survive their "xxx=" group |
| Base64.DecodeStep | scripts/fix_svg_background.py:37 | a full group in front of a decodable text adds its three bytes in front |
| Base64.RoundTrip | scripts/fix_svg_background.py:37 | decoding the encoding gives back exactly the bytes |
| Base64.Injective | scripts/fix_svg_background.py:37 | different byte strings never share an encoding |
| Base64.TestVectors | scripts/fix_svg_background.py:37 | the test vectors of section 10 of RFC 4648 |
| CheckTransparency.Corners | scripts/check_transparency.py:27-32 | the four sampled points are (0,0), (0,h-1), (w-1,0), (w-1,h-1), in that order |
| CheckTransparency.CornerFlag | scripts/check_transparency.py:36-42 | a corner test raises exactly when the point is off the image or, as written, the pixel is an int |
| CheckTransparency.Scan | scripts/check_transparency.py:34-42 | the corner loop raises if any corner raises, and otherwise flags exactly when some corner was flagged |
| CheckTransparency.ScanCorners | scripts/check_transparency.py:34-42 | the loop with its `is_transparent` flag computes the corner scan |
| CheckTransparency.CheckAll | scripts/check_transparency.py:8-58 | a missing directory reports nothing; otherwise one verdict per ".png" name, in listing order |
| CheckTransparency.LANeverFlagged | scripts/check_transparency.py:36-47 | an "LA" image is never flagged at a corner and never reaches the extrema fallback |
| CheckTransparency.RGBACorners | scripts/check_transparency.py:34-53 | an "RGBA" image is flagged exactly when a corner has alpha 0, and otherwise the alpha minimum decides between some and no transparency |
| CheckTransparency.PaletteFails | scripts/check_transparency.py:25-38 | as written, a palette image with a transparency entry always ends in the failure branch |
| CheckTransparency.FixedPaletteJudged | scripts/check_transparency.py:25-53 | with the palette test, such an image is always judged: flagged exactly when a corner holds a fully transparent index (the single "transparency" index, or an index whose alpha in the tRNS table is 0), otherwise decided by the extrema fallback |
| CheckTransparency.ClearIndexForms | scripts/check_transparency.py:25 | both forms of the "transparency" entry are read: a single index, and a per-index alpha table where an index past its end is opaque |
| CheckTransparency.FixedAgrees | scripts/check_transparency.py:20-58 | the palette test changes no verdict the script as written reaches |
| CheckTransparency.ReportAppend | scripts/check_transparency.py:17-58 | each file is handled on its own, so an exception never stops the scan |
| FsTree.Get | src/types.d.ts:90-92 | reading a key of a directory object finds the entry stored under that key, and nothing exactly when no entry has that name |
| FsTree.Keys | src/types.d.ts:90-92 | `Object.keys` lists the names in entry order |
| FsTree.Delete | src/types.d.ts:90-92 | `delete` never adds an entry |
| FsTree.GetPut | src/types.d.ts:90-92 | after `dir[key] = v` the key reads `v` and every other key reads as before |
| FsTree.PutNew | src/types.d.ts:90-92 | a new key is appended after the existing entries |
| FsTree.KeysPut | src/types.d.ts:90-92 | assigning an existing key keeps the key order; a new key goes last |
| FsTree.GetDelete | src/types.d.ts:90-92 | after `delete dir[key]` the key is gone and every other key reads as before |
| FsTree.DeleteDistinct | src/types.d.ts:90-92 | deleting a present name removes exactly one entry and keeps names distinct |
| FsTree.DeleteAbsent | src/types.d.ts:90-92 | deleting an absent name changes nothing |
| FsTree.DeleteSubset | src/types.d.ts:90-92 | deleting only removes entries |
| FsTree.PutDistinct | src/types.d.ts:90-92 | assignment keeps the names of an object distinct |
| FsTree.PutKey | src/types.d.ts:90-92 | after assignment each name is the assigned key or one that was there, in place |
| TerminalCore.Parts | src/terminal/core.ts:16 | the path components are non-empty and slash-free |
| TerminalCore.Resolve | src/terminal/core.ts:15-28 | a walk that starts at a directory and succeeds ends at a directory |
| TerminalCore.ResolvePath | src/terminal/core.ts:15-28 | the loop skips "root" components, descends only into child directories and returns `null` at a missing name or a file |
| TerminalCore.ResolveAppend | src/terminal/core.ts:19-26 | resolving `a + b` is resolving `a`, then `b` from where `a` led; a failed walk stays failed |
| TerminalCore.RootSegmentIgnored | src/terminal/core.ts:20 | a "root" component anywhere in the path makes no difference |
| TerminalCore.SlashIsRoot | src/terminal/core.ts:15-28 | "/" resolves to the root itself |
| TerminalCore.LeadingSlashIgnored | src/terminal/core.ts:16 | a leading "/" makes no difference, so "home/guest" resolves as "/home/guest" |
| TerminalCore.EditResolves | src/terminal/pietros.ts:233-251 | after an in-place change of the directory a path resolves to, the path resolves to the changed directory |
| TerminalCore.EditKeepsDir | src/terminal/pietros.ts:233-251 | changing a directory in place keeps the tree a directory |
| TerminalCore.EditSameIsIdentity | src/terminal/pietros.ts:233-251 | writing back the directory that was read changes nothing |
| TerminalCore.PutSame | src/terminal/pietros.ts:233-251 | re-assigning a key its own value changes nothing |
| TerminalCore.EditMissing | src/terminal/pietros.ts:233-251 | a path that does not resolve leaves the tree as it is |
| TerminalCore.Up | src/terminal/core.ts:50-63 | ArrowUp touches neither the history nor the tab state |
| TerminalCore.Down | src/terminal/core.ts:64-76 | ArrowDown touches neither the history nor the tab state |
| TerminalCore.ArrowsKeepIndex | src/terminal/core.ts:50-76 | the index stays in [-1, length-1]; ArrowUp moves back exactly while the index is below length-1 and shows `history[length-1-index]`; ArrowDown moves forward while above -1 and shows the empty line at -1 |
| TerminalCore.DownUndoesUp | src/terminal/core.ts:50-76 | ArrowDown after a moving ArrowUp returns to the same index and shows the entry that belongs to it |
| TerminalCore.Matches | src/terminal/core.ts:96-98 | the filter keeps exactly the commands that start with the prefix |
| TerminalCore.TabPressed | src/terminal/core.ts:79-123 | Tab never calls a handler and never touches the history or its index |
| TerminalCore.TabWithoutMatch | src/terminal/core.ts:83-100 | an empty prefix or one without matches changes nothing |
| TerminalCore.TabSingleMatch | src/terminal/core.ts:102-106 | a single match is written into the input and resets the cycle |
| TerminalCore.TabCycle | src/terminal/core.ts:107-121 | with several matches a new prefix lists them and writes the first, a repeated one writes `matches[index]`; the index advances modulo their number |
| TerminalCore.TabCompletionIsNewPrefix | src/terminal/core.ts:81-121 | the completion overwrites the input, so the next Tab sees the completed word as a new prefix and restarts over a subset of the matches |
| TerminalCore.TabWritesMatch | src/terminal/core.ts:107-121 | with several matches Tab writes one of them and remembers the prefix |
| TerminalCore.ResetTab | src/terminal/core.ts:125-129 | any key other than Tab resets the last tab input and the index, nothing else |
| TerminalCore.EnterRoutes | src/terminal/core.ts:131-142 | only Enter calls a handler, with the trimmed input; the default branch names `handleOS93Command`, which is not among the handlers `src/main.ts` registers |
| TerminalCore.PressKeepsIndex | src/terminal/core.ts:43-143 | no key breaks the history-index range |
| TerminalCore.HandleTerminalCommand | src/terminal/core.ts:43-143 | the handler, through the state setters, leaves the console, listing and call of the key-press specification |
| TerminalCore.PressArrow | src/terminal/core.ts:50-76 | the arrow branches implement ArrowUp and ArrowDown on the shared state |
| TerminalCore.PressTab | src/terminal/core.ts:79-123 | the Tab branch implements the completion specification |
| TerminalCore.CycleTab | src/terminal/core.ts:107-121 | several matches: a new prefix restarts at 0 and lists the matches; the written match is the one at the index and the index advances modulo their number |
| TerminalCore.PromptFollowsMode | src/terminal/core.ts:31-40 | the `user@host` prompt is shown exactly when Enter goes to the default handler, and the personality prompts ignore user and host |
| TerminalCore.InitialPrompt | src/terminal/core.ts:38-39 | the initial state's prompt reads "guest@OS93" |
| ModeTerminals.Cyberpunk | src/terminal/cyberpunk.js:8-78 | an empty line is echoed and changes nothing; any other line is pushed with the index reset to -1; the line throws exactly on "exit"/"disconnect" without a terminal window; the mode record changes only on an exit with the window, to mode "os93" and user "guest"; `breach` always names a target |
| ModeTerminals.Fallout | src/terminal/fallout.ts:8-75 | never throws; an empty line is echoed and changes nothing; any other line is pushed with the index reset to -1; only "exit"/"disconnect" change the mode record, to mode "os93" and user "guest" |
| ModeTerminals.LeavingRoutesToDefault | src/terminal/core.ts:131-142 | after leaving either personality the next Enter goes to the unregistered default handler and the prompt reads "guest@<host>~$" |
| ModeTerminals.LeavingIsIdempotent | src/terminal/cyberpunk.js:60-72 | a console already in mode "os93" as user "guest" keeps its mode record whatever the line |
| ModeTerminals.HandleCyberpunk | src/terminal/cyberpunk.js:8-78 | the handler, through the state setters, follows the netrunner specification, throw included |
| ModeTerminals.HandleFallout | src/terminal/fallout.ts:8-75 | the handler, through the state setters, follows the RobCo specification |
| PietrOS.GuessTurn | src/terminal/pietros.ts:39-57 | a line typed during the guessing game changes only the game's state |
| PietrOS.GuessFacts | src/terminal/pietros.ts:39-57 | a non-number is rejected and changes nothing; a number counts as one attempt; the game stays active exactly while the guess misses the target |
| PietrOS.CiscoTurn | src/terminal/pietros.ts:59-79 | a line typed in the router session changes only the router flag |
| PietrOS.CiscoFacts | src/terminal/pietros.ts:59-79 | the router session ends exactly on `exit`, `quit` or `logout` (trimmed, any case) |
| PietrOS.TerraformAnswer | src/terminal/pietros.ts:81-93 | any answer leaves the confirmation mode; the changes are applied exactly on "yes" or "y" |
| PietrOS.TerraformEntry | src/terminal/pietros.ts:428-476 | the confirmation mode is entered only by `terraform plan`, and only when no other sub-mode is active |
| PietrOS.Terraform | src/terminal/pietros.ts:428-476 | `terraform` changes only the confirmation flag, and sets it only for the `plan` argument |
| PietrOS.EmptyInputIgnored | src/terminal/pietros.ts:32-36 | an empty line is only echoed and changes nothing |
| PietrOS.HistoryRule | src/terminal/pietros.ts:39-97 | a line answered by an active sub-mode is not recorded; any other non-empty line is appended to the history and the history index is reset to -1 |
| PietrOS.SubModePrecedence | src/terminal/pietros.ts:39-93 | the sub-modes take a line in the order guess, router, terraform, and an active earlier mode leaves everything else untouched |
| PietrOS.VerbOf | src/terminal/pietros.ts:102-1012 | each command word selects its own case of the switch, and only that word selects it (both directions) |
| PietrOS.Command | src/terminal/pietros.ts:99-1019 | no standard command changes the history or the quote list |
| PietrOS.CommandKeepsHistory | src/terminal/pietros.ts:99-1019 | the standard commands leave the history and its index as the handler set them |
| PietrOS.Run | src/terminal/pietros.ts:102-1019 | each part of the session is changed by one command only: the path by `cd`, the tree by `mkdir`, `touch` and `rmdir`, the game by `guess`, the router flag by `cisco`/`ssh`, terraform mode by `terraform plan`, the personality by `cyberpunk`/`fallout`, the quote index by `quote` |
| PietrOS.SwitchTo | src/terminal/pietros.ts:103-146 | a personality switch changes only the terminal's mode, user and host settings |
| PietrOS.PersonalityFacts | src/terminal/pietros.ts:103-146 | `cyberpunk` and `fallout` set the mode and user ("V" or "VAULT_DWELLER") only when the terminal window exists, and otherwise change nothing |
| PietrOS.Quote | src/terminal/pietros.ts:524-534 | `quote` changes only the quote index |
| PietrOS.QuoteFacts | src/terminal/pietros.ts:524-534 | `quote` shows the entry at the index and advances the index, back to 0 at the end; the list itself is never reordered, because the shuffled copy is dropped |
| PietrOS.DirAt | src/terminal/pietros.ts:18-21 | the current directory exists exactly when the path resolves, and then it is the directory the path resolves to |
| PietrOS.Label | src/terminal/pietros.ts:197-204 | `ls` shows a directory with a trailing "/" and a file by its bare name |
| PietrOS.Listed | src/terminal/pietros.ts:193-207 | `ls` prints at most one name per entry |
| PietrOS.ListedAll | src/terminal/pietros.ts:193-207 | `ls -a` prints every entry, in key order |
| PietrOS.ListedComplete | src/terminal/pietros.ts:193-207 | every visible entry is printed |
| PietrOS.ListedSound | src/terminal/pietros.ts:193-207 | without "-a" no printed name starts with a dot |
| PietrOS.LabelVisible | src/terminal/pietros.ts:197-204 | the trailing "/" does not change whether a name counts as hidden |
| PietrOS.Cd | src/terminal/pietros.ts:209-231 | `cd` changes only the current path |
| PietrOS.CdFacts | src/terminal/pietros.ts:209-231 | no argument does nothing; `..` goes to the parent path; a subdirectory is entered silently; anything else leaves the path unchanged and reports the missing directory |
| PietrOS.ParentPathFacts | src/terminal/pietros.ts:211-219 | `cd ..` removes exactly the last piece while more than two pieces remain, and never leaves "/home" |
| PietrOS.HomeIsTop | src/terminal/pietros.ts:211-219 | "/home" is a fixed point of `cd ..` |
| PietrOS.HomePathRooted | src/terminal/pietros.ts:15 | the starting path "/home/guest" lies under "/home" |
| PietrOS.ChildPathFacts | src/terminal/pietros.ts:220-229 | entering a subdirectory appends its name as one more piece, and the new path resolves to that very subdirectory |
| PietrOS.HandledKeepsInvariant | src/terminal/pietros.ts:23-1019 | every line keeps the path under "/home" and the tree a directory |
| PietrOS.CommandKeepsInvariant | src/terminal/pietros.ts:99-1019 | every standard command keeps the path under "/home" and the tree a directory |
| PietrOS.CommandKeepsHome | src/terminal/pietros.ts:209-231 | only `cd` moves the path, and it keeps it under "/home" |
| PietrOS.CommandKeepsDir | src/terminal/pietros.ts:233-268 | the editing commands keep the tree's root a directory |
| PietrOS.CdKeepsHome | src/terminal/pietros.ts:209-231 | `cd` keeps the path under "/home" |
| PietrOS.EditsKeepDir | src/terminal/pietros.ts:233-268 | `mkdir`, `touch` and `rmdir` keep the tree's root a directory |
| PietrOS.TreeChangedOnlyByEdits | src/terminal/pietros.ts:23-1019 | only `mkdir`, `touch` and `rmdir` change the file tree |
| PietrOS.Mkdir | src/terminal/pietros.ts:233-244 | `mkdir` changes only the file tree |
| PietrOS.MkdirFacts | src/terminal/pietros.ts:233-244 | an existing name of either kind is an error that changes nothing; otherwise one empty directory is added after the existing entries |
| PietrOS.Touch | src/terminal/pietros.ts:245-252 | `touch` changes only the file tree |
| PietrOS.TouchFacts | src/terminal/pietros.ts:245-252 | `touch` makes the name a file, even over a directory, and leaves every other entry as it was |
| PietrOS.Rmdir | src/terminal/pietros.ts:253-268 | `rmdir` changes only the file tree |
| PietrOS.RmdirFacts | src/terminal/pietros.ts:253-268 | the entry is removed exactly when it is an empty directory, other entries unchanged; otherwise nothing changes and the error says "not empty" or "no such entry" |
| PietrOS.CatFacts | src/terminal/pietros.ts:270-283 | apart from the built-in texts, `cat` prints an empty file exactly for a file entry and reports anything else missing |
| PietrOS.NoSpaces | src/terminal/pietros.ts:312 | the cleaned expression is no longer than the input and holds no whitespace |
| PietrOS.Flip | src/terminal/pietros.ts:656-674 | the flipped text has the same length, and position i holds the table image of the character at the mirrored position |
| PietrOS.FlipTwice | src/terminal/pietros.ts:656-674 | flipping twice gives the text back exactly when the table maps each of its characters back to itself |
| PietrOS.RpsFacts | src/terminal/pietros.ts:675-707 | the player wins exactly when their hand beats the computer's, loses exactly when the computer's beats theirs, draws on equal hands, and swapping the hands swaps win and loss |
| PietrOS.Shell.constructor | src/terminal/pietros.ts:10-15 | the interpreter starts at "/home/guest" with the shared tree and every sub-mode off, and satisfies the interpreter invariant whenever the shared tree is a directory |
| PietrOS.Shell.Handle | src/terminal/pietros.ts:23-1019 | the handler's updates to the interpreter and shared state are exactly those of the line-handling function |
| PietrOS.Shell.GuessLine | src/terminal/pietros.ts:39-57 | the in-place guessing-game step agrees with GuessTurn |
| PietrOS.Shell.CiscoLine | src/terminal/pietros.ts:59-79 | the in-place router step agrees with CiscoTurn |
| PietrOS.Shell.TerraformLine | src/terminal/pietros.ts:81-93 | the in-place confirmation step agrees with the terraform answer rule |
| PietrOS.Shell.RunCommand | src/terminal/pietros.ts:99-1019 | the in-place standard-command step agrees with Command |
| PietrOS.Shell.Dispatch | src/terminal/pietros.ts:102-1019 | each in-place case of the switch agrees with Run |
| PietrOS.Shell.OutputOnly | src/terminal/pietros.ts:147-1012 | the commands that only print change no state |
| PietrOS.Shell.SwitchPersonality | src/terminal/pietros.ts:103-146 | the in-place personality switch agrees with SwitchTo |
| PietrOS.Shell.ChangeDirectory | src/terminal/pietros.ts:209-231 | the in-place `cd` agrees with Cd |
| PietrOS.Shell.MakeDirectory | src/terminal/pietros.ts:233-244 | the in-place `mkdir` agrees with Mkdir |
| PietrOS.Shell.TouchEntry | src/terminal/pietros.ts:245-252 | the in-place `touch` agrees with Touch |
| PietrOS.Shell.RemoveDirectory | src/terminal/pietros.ts:253-268 | the in-place `rmdir` agrees with Rmdir |
| PietrOS.Shell.StartTerraform | src/terminal/pietros.ts:428-476 | the in-place `terraform` agrees with Terraform |
| PietrOS.Shell.NextQuote | src/terminal/pietros.ts:524-534 | the in-place `quote` agrees with Quote |
| PietrOS.Handled | src/terminal/pietros.ts:23-1019 | defines the handling of one line by pietrOS; HandledKeepsInvariant and the per-command lemmas state its properties |
| PietrOS.FlipChar | src/terminal/pietros.ts:656-670 | defines the `flipMap` lookup, a character missing from the table mapping to itself; Flip and FlipTwice state its use |
| PietrOS.Rps | src/terminal/pietros.ts:675-707 | defines `rps`: usage text for a word not starting with r, p or s, else the hands and the result; RpsFacts states the result |
| Os93.VerbOf93 | src/terminal/os93.js:103-1158 | `noclip` is not a case of this switch; `mkdir`, `touch`, `rmdir`, `open`, `quote` and `flip` each select their own case and only that word selects it |
| Os93.Step93 | src/terminal/os93.js:254-743 | a thrown line keeps the session as it was, except that `quote` may already have set the index back to 0 |
| Os93.SubModesAgree | src/terminal/os93.js:25-94 | empty lines and lines taken by a sub-mode never throw and are handled exactly as in pietrOS |
| Os93.ThrowsExactly | src/terminal/os93.js:254-526 | a standard command throws exactly when `mkdir`, `touch` or `rmdir` gets a name while the current directory does not resolve, when `open` runs without a window registry, or when `quote` is on the last quote; a throw keeps the history push and the reset quote index |
| Os93.AgreesWithPietrOS | src/terminal/os93.js:22-1162 | every line that does not throw, other than `noclip` and `flip`, has the same effect and output as in pietrOS |
| Os93.NoClipUnknown | src/terminal/os93.js:1157-1159 | `noclip` reaches the default case and prints "Command not found" |
| Os93.QuoteThrowsAtEnd | src/terminal/os93.js:517-526 | `quote` throws exactly on the last quote, after setting the index back to 0, so that quote is never printed |
| Os93.Handled93KeepsInvariant | src/terminal/os93.js:22-1162 | thrown or not, a line keeps the path under "/home" and the tree a directory |
| Os93.Handle | src/terminal/os93.js:22-1162 | the in-place handler keeps the interpreter invariant and agrees with the os93 line-handling function Handled93, its own `flip` table and its throws included |
| Os93.Line | src/terminal/os93.js:25-100 | the in-place step tries the sub-modes in order, then pushes the line and runs the os93 switch, with its own `flip` table |
| Os93.StandardCommand | src/terminal/os93.js:100-1159 | the in-place switch agrees with Step93, the os93 standard-command function, whose `flip` uses the table of os93.js |
| Os93.Case93 | src/terminal/os93.js:254-743 | each in-place case, with its unguarded reads and its `flip` table, agrees with Step93 |
| Os93.NextQuote93 | src/terminal/os93.js:517-526 | the index advances, and wraps to 0 with a thrown exception at the end of the list; otherwise the quote at the old index is shown |
| Os93.Handled93 | src/terminal/os93.js:22-1162 | defines the handling of one line by os93, a throw included; AgreesWithPietrOS, FlipLine, NoClipUnknown and Handled93KeepsInvariant state its properties |
| Os93.Image93 | src/terminal/os93.js:655-735 | the os93 `flipMap` image of a character has one to three characters; a character missing from the table maps to itself |
| Os93.Utf8 | src/terminal/os93.js:655-735 | the UTF-8 encoding of section 3 of RFC 3629: one to four bytes, each below 256, and one byte exactly for a character below 0x80 |
| Os93.Cp1252 | src/terminal/os93.js:655-735 | the Windows-1252 reading of a byte: bytes outside 0x80..0x9F read as themselves |
| Os93.MisreadImage | src/terminal/os93.js:655-735 | the UTF-8 bytes of a character read back one by one in Windows-1252: as many characters as bytes, and an ASCII character unchanged |
| Os93.Image93Misread | src/terminal/os93.js:655-657 | the os93 images of "a" and "i" are the UTF-8 bytes of pietrOS's images read in Windows-1252 |
| Os93.Image93Single | src/terminal/os93.js:655-735 | an os93 image of one character is pietrOS's image of the same key |
| Os93.Flip93 | src/terminal/os93.js:736-743 | the flipped text is at least as long as the text |
| Os93.Flip93Append | src/terminal/os93.js:736-743 | flipping a concatenation flips each part and swaps them, so the images come in reverse order |
| Os93.Flip93Length | src/terminal/os93.js:655-743 | the os93 flip keeps the length exactly when every character has a one-character image, and then equals pietrOS's flip |
| Os93.Flip93AgreesExactly | src/terminal/os93.js:655-743 | the os93 flip equals pietrOS's flip exactly when every character of the text has a one-character image |
| Os93.FlipDiffers | src/terminal/os93.js:655-657 | `flip a` prints two mis-encoded characters in os93 where pietrOS prints one turned letter |
| Os93.FlipLine | src/terminal/os93.js:736-743 | a `flip` line pushes the history and prints Flip93 of its text, and its output is pietrOS's exactly when every character has a one-character image |
| Os93.QuoteFixed | src/terminal/os93.js:517-526 | the corrected `quote` changes only the quote index and the quote list |
| Os93.QuoteFixedFacts | src/terminal/os93.js:517-526 | the corrected `quote` always prints the quote at the index; on the last quote it resets the index and reshuffles to a permutation of the quotes, otherwise it advances the index |
| Os93.QuoteFixedAgrees | src/terminal/os93.js:517-526 | the corrected `quote` and the os93 case give the same outcome exactly when the index is not on the last quote |
| Os93.NextQuoteFixed | src/terminal/os93.js:517-526 | the in-place corrected `quote` agrees with QuoteFixed |
| Snake.NotReversalIff | src/games/snake.ts:353-356 | the reversal guard accepts a new direction exactly when it is not the opposite of the current one |
| Snake.Drawn | src/games/snake.ts:200-203 | a drawn food position lies on the 20 by 20 grid |
| Snake.FoodAfterFacts | src/games/snake.ts:197-207 | the new food is the first draw that misses the snake: it is on the grid, off the snake, and every earlier draw hit the snake |
| Snake.StartSnakeWellFormed | src/games/snake.ts:101-106 | the starting snake is on the grid, connected and free of repeated cells |
| Snake.RestartedFacts | src/games/snake.ts:99-123 | `restart` faces right with score 0 and speed 120, not started and not over, keeps the best score, and puts the food off the snake |
| Snake.TickedCollides | src/games/snake.ts:134-156 | a head off the grid or on any body cell, the tail included, ends the game with the snake and score unchanged, the timer stopped and the best score at least the score |
| Snake.TickedMoves | src/games/snake.ts:134-175 | otherwise the head moves one cell in the queued direction; eating grows the snake by one and adds 10, and any other move keeps length, score and food |
| Snake.TickedValid | src/games/snake.ts:134-175 | a tick keeps the game valid: the snake stays on the grid, connected and free of repeats, the speed stays a multiple of 10 in 60..120 and the score a multiple of 10 |
| Snake.GrowWellFormed | src/games/snake.ts:159 | putting an adjacent, free, on-grid head in front keeps the snake well formed |
| Snake.DropTailWellFormed | src/games/snake.ts:174 | dropping the tail of a snake of two or more cells keeps it well formed |
| Snake.StepIsAdjacent | src/games/snake.ts:140-144 | the new head is next to the old one |
| Snake.TickedFoodOff | src/games/snake.ts:158-175 | the food stays off the snake after every tick |
| Snake.EndedKeepsBest | src/games/snake.ts:178-195 | after the game ends the best score is at least the score and never decreases |
| Snake.KeyAfterStart | src/games/snake.ts:350-358 | once started, a key only ever queues a direction that is not the reverse of the current one, and nothing else changes |
| Snake.FirstKeyStarts | src/games/snake.ts:343-348 | any key starts a fresh game and its timer, queuing the key's direction if it has one |
| Snake.FirstKeyLeftEndsGame | src/games/snake.ts:343-348 | the first key is queued without the reversal guard, so Left on a fresh game runs into the second cell and the first tick ends the game with score 0 |
| Snake.SnakeGame.constructor | src/games/snake.ts:39-98 | a new game is the restarted game with the saved best score |
| Snake.SnakeGame.Restart | src/games/snake.ts:99-123 | the in-place restart agrees with Restarted |
| Snake.SnakeGame.StartGame | src/games/snake.ts:126-132 | the in-place start agrees with Started |
| Snake.SnakeGame.SpawnFood | src/games/snake.ts:197-207 | the in-place redraw loop sets the food to FoodAfter and changes nothing else |
| Snake.SnakeGame.Tick | src/games/snake.ts:134-175 | the in-place tick agrees with Ticked |
| Snake.SnakeGame.EndGame | src/games/snake.ts:178-195 | the in-place end agrees with Ended |
| Snake.SnakeGame.HandleKeyDown | src/games/snake.ts:331-359 | the in-place key handler agrees with KeyPressed |
| Snake.Ticked | src/games/snake.ts:134-175 | defines one game tick; TickedCollides, TickedMoves, TickedValid and TickedFoodOff state its properties |
| Threes.RandomValue | src/games/threes.ts:86-91 | every draw is a spawn value: 1, 2 or 3 |
| Threes.RandomValueCoversAll | src/games/threes.ts:86-91 | each of 1, 2 and 3 can be drawn |
| Threes.MergeValue | src/games/threes.ts:99-103 | a pair that can merge gives the sum of the two values; any other pair keeps the first value |
| Threes.CanMergeCharacterised | src/games/threes.ts:93-97 | merging is symmetric and allowed exactly for 1 with 2 and for equal values of 3 or more |
| Threes.MergeKeepsTileValue | src/games/threes.ts:99-103 | merging two tile values (1, 2 or 3 times a power of two) gives a tile value |
| Threes.SpawnIsTileValue | src/games/threes.ts:86-91 | spawned values are tile values |
| Threes.TileScore | src/games/threes.ts:107-109 | a tile below 3 scores nothing |
| Threes.TileScoreOfTile | src/games/threes.ts:107-109 | the tile 3 times 2^k scores 3^(k+1), which is what `3 ** (log2(v / 3) + 1)` computes on tile values |
| Threes.CalculateScore | src/games/threes.ts:105-111 | an empty board scores 0 |
| Threes.LineAt | src/games/threes.ts:566-594 | the tiles found at one position of one line are drawn from the board |
| Threes.Absorb | src/games/threes.ts:539-555 | one loop step keeps the result length or adds one tile, and the result is never empty afterwards |
| Threes.CompactLength | src/games/threes.ts:531-561 | compacting a line shortens it by exactly the number of merges |
| Threes.CompactSum | src/games/threes.ts:531-561 | compacting a line keeps its total value |
| Threes.CompactKeepsCells | src/games/threes.ts:531-561 | every kept tile is a tile of the line with the same id and cell |
| Threes.CompactKeepsTileValues | src/games/threes.ts:531-561 | compacting keeps every value a tile value |
| Threes.ProcessedKeepsCells | src/games/threes.ts:531-561 | the same holds when the line is processed back to front |
| Threes.ProcessedKeepsTileValues | src/games/threes.ts:531-561 | processing in either direction keeps every value a tile value |
| Threes.Placed | src/games/threes.ts:568-580 | the kept tiles of a line are packed against the edge, position i going to its target cell, ids and values unchanged |
| Threes.MovedLines | src/games/threes.ts:564-598 | a move produces one moved line per row or column |
| Threes.MovedFlags | src/games/threes.ts:564-598 | the moved flag is computed for each of the four lines |
| Threes.Lines | src/games/threes.ts:565-566 | a move gathers one line per row or column |
| Threes.LinesPartition | src/games/threes.ts:565-566 | the lines of a move partition the board, so together they carry its total value |
| Threes.MovedLineShape | src/games/threes.ts:564-598 | after a move each line holds at most four tiles, all in that line, packed against the edge of the move, on the grid and with tile values |
| Threes.MoveKeepsValueSum | src/games/threes.ts:525-604 | a move keeps the total tile value: merges add, nothing is lost |
| Threes.MoveKeepsBoardValid | src/games/threes.ts:525-604 | a move keeps the board valid: on the grid, one tile per cell, tile values only |
| Threes.EmptyEdgeIff | src/games/threes.ts:310-342 | a cell is offered for the new tile exactly when it is free and on the edge opposite the move |
| Threes.AddTileKeepsValid | src/games/threes.ts:383 | adding a spawn-value tile on a free cell keeps the board valid |
| Threes.SpawnedValid | src/games/threes.ts:369-385 | the new tile, if any, sits on a free cell of the opposite edge and the board stays valid |
| Threes.MoveThenSpawnValid | src/games/threes.ts:343-397 | a move followed by its spawn keeps the board valid |
| Threes.AllCellsNoDup | src/games/threes.ts:288-292 | the listed grid positions are all different |
| Threes.NoDupPermutation | src/games/threes.ts:295-298 | shuffling a list without repeats keeps it without repeats |
| Threes.InitialTiles | src/games/threes.ts:301-304 | `initializeGrid` creates nine tiles |
| Threes.InitialTilesValid | src/games/threes.ts:282-308 | the nine starting tiles lie on distinct cells of the grid and carry spawn values |
| Threes.ProcessLine | src/games/threes.ts:531-561 | the loop computes the compacted line (of the reversed line, reversed back, for down and right) and reports a merge exactly when the line got shorter |
| Threes.PlaceLine | src/games/threes.ts:568-580 | the packing loop computes Placed and reports a shift exactly when some tile's position changed |
| Threes.ThreesGame.constructor | src/games/threes.ts:160-189 | a new game holds the nine starting tiles, the first preview value, score and high score computed from them, no snapshot and no animation |
| Threes.ThreesGame.UpdateScore | src/games/threes.ts:615-642 | the score is recomputed from the tiles and the high score follows it upwards |
| Threes.ThreesGame.InitializeGrid | src/games/threes.ts:282-308 | the grid is refilled with the nine starting tiles, the id counter ends at 9 and the game is not over |
| Threes.ThreesGame.GridPositions | src/games/threes.ts:287-292 | the nested loops list every cell row by row |
| Threes.ThreesGame.PlaceInitialTiles | src/games/threes.ts:300-304 | the first nine shuffled cells each get a tile with ids 1 to 9 |
| Threes.ThreesGame.EmptyPositions | src/games/threes.ts:310-342 | the in-place search returns the free cells of the opposite edge |
| Threes.ThreesGame.MoveTiles | src/games/threes.ts:525-604 | the move works on copies, returns the moved board and whether anything moved, and leaves the tiles as they were |
| Threes.ThreesGame.CanMove | src/games/threes.ts:606-613 | the game can continue exactly when one of the four directions moves something |
| Threes.ThreesGame.Move | src/games/threes.ts:343-397 | nothing happens when the game is over or animating; otherwise the undo snapshot is overwritten even when nothing moves, and a move that does move applies the moved board and its spawn and starts the animation |
| Threes.ThreesGame.Play | src/games/threes.ts:346-397 | the body of a move once the guard let the key through |
| Threes.ThreesGame.Slide | src/games/threes.ts:346-366 | the snapshot is taken first and the tiles are replaced by the moved ones exactly when something moved |
| Threes.ThreesGame.SpawnTile | src/games/threes.ts:368-385 | the previewed value is placed on a free edge cell and a new preview is drawn; a full edge spawns nothing |
| Threes.ThreesGame.FinishAnimation | src/games/threes.ts:426-441 | at the end of the animation the score is updated and the game ends exactly when no direction moves |
| Threes.ThreesGame.Undo | src/games/threes.ts:852-887 | without a snapshot or during an animation nothing changes; otherwise the snapshot's tiles, score and preview come back, the snapshot is cleared and the game is not over |
| Threes.ThreesGame.Reset | src/games/threes.ts:825-835 | a fresh grid with no snapshot, no animation and the game not over: the shuffled initial tiles, the drawn next tile, the score of those tiles, and the high score raised to that score when it is larger |
| Game2048.Set | src/games/game-2048.ts:119 | writing one cell changes that cell and no other |
| Game2048.EmptyBoard | src/games/game-2048.ts:88-90 | the new board is 4 by 4 with every cell empty |
| Game2048.Farthest | src/games/game-2048.ts:302-315 | the farthest position lies on the board |
| Game2048.FarthestLands | src/games/game-2048.ts:302-315 | a slide ends on the cell it started from or on an empty cell |
| Game2048.FarthestStops | src/games/game-2048.ts:302-315 | a slide stops at the edge or in front of an occupied cell |
| Game2048.FarthestInLine | src/games/game-2048.ts:302-315 | a slide stays on the line of the move and never goes backwards |
| Game2048.Trav | src/games/game-2048.ts:287-300 | each axis is traversed over four positions |
| Game2048.Order | src/games/game-2048.ts:216-250 | the nested loops visit sixteen cells, all on the board |
| Game2048.OrderAt | src/games/game-2048.ts:216-217 | pass j of the inner loop inside pass i of the outer one visits (traversals.x[i], traversals.y[j]) |
| Game2048.OrderOfRank | src/games/game-2048.ts:216-250 | every cell of the board is visited once, at its rank |
| Game2048.RankNext | src/games/game-2048.ts:297-298 | traversals start from the far side: a cell further along the move is visited earlier |
| Game2048.RankFarthest | src/games/game-2048.ts:302-315 | the farthest cell and the one after it are visited no later than the tile's own cell |
| Game2048.MoveTile | src/games/game-2048.ts:280-285 | the tile is put on the target with its coordinates updated, the cell it recorded is cleared, and nothing else changes |
| Game2048.SlidIsMoveTile | src/games/game-2048.ts:243-247 | on a board whose tiles record their cells, the slide branch is exactly `moveTile` |
| Game2048.DecideFacts | src/games/game-2048.ts:222-248 | a merge joins two equal, not yet merged tiles on distinct cells, the target visited earlier; a slide lands on the tile's own cell or an empty one; only the unchecked read aborts, and only in a sideways move |
| Game2048.Cleared | src/games/game-2048.ts:270-278 | `prepareTiles` clears the merge mark of every tile and changes nothing else |
| Game2048.ClearedTotals | src/games/game-2048.ts:270-278 | `prepareTiles` keeps every value and leaves no tile marked as merged |
| Game2048.SetTotal | src/games/game-2048.ts:119 | setting one cell changes a board total by the difference of the two cells' weights |
| Game2048.StepInv | src/games/game-2048.ts:220-249 | one cell of the traversal keeps the traversal invariant (value total kept, score equal to the merged values, positive values) |
| Game2048.RunInv | src/games/game-2048.ts:216-251 | the traversal invariant holds after every prefix of the traversal |
| Game2048.MergeInv | src/games/game-2048.ts:228-241 | the merge branch keeps the traversal invariant |
| Game2048.MoveInv | src/games/game-2048.ts:242-247 | the slide branch keeps the traversal invariant |
| Game2048.TraversalFacts | src/games/game-2048.ts:206-251 | a move keeps the sum of the tile values, raises the score by exactly the values of the merged tiles (so it never falls), sets `won` exactly when a merge made 2048 or it was already set, and keeps every value positive |
| Game2048.RunCrashed | src/games/game-2048.ts:227 | once the move aborted, no further cell changes anything |
| Game2048.CrashIsFinal | src/games/game-2048.ts:227 | an aborted move ends in the state reached at the abort |
| Game2048.RunNeverCrashes | src/games/game-2048.ts:227 | with a bounds-checked read, or in a vertical move, no cell aborts the move |
| Game2048.RunEmptyPrefix | src/games/game-2048.ts:222 | empty cells are skipped without any change |
| Game2048.SlidesOffBoard | src/games/game-2048.ts:302-315 | when every cell visited before a tile is empty, the tile slides to the edge and the cell after it is off the board |
| Game2048.DecideCrash | src/games/game-2048.ts:227 | the unchecked read aborts whenever `next.x` is off the board |
| Game2048.FirstTileCrashesHere | src/games/game-2048.ts:227 | the first tile of a left or right move aborts the move, with the board as `prepareTiles` left it |
| Game2048.FirstTileCrashes | src/games/game-2048.ts:227 | as written, a left or right move aborts at its first tile, whatever follows |
| Game2048.SidewaysMoveCrashes | src/games/game-2048.ts:227 | as written, a left or right move on a board holding any tile aborts before any tile has moved |
| Game2048.TraversalCompletes | src/games/game-2048.ts:227 | with the bounds check, and in any vertical move, the traversal runs to the end |
| Game2048.DecideUnchecked | src/games/game-2048.ts:227 | in a vertical move `next.x` is the tile's own column, so the bounds check changes nothing |
| Game2048.RunUnchecked | src/games/game-2048.ts:216-251 | in a vertical move every prefix of the traversal is the same with and without the bounds check |
| Game2048.VerticalMoveUnchanged | src/games/game-2048.ts:206-251 | up and down moves are the same with and without the bounds check |
| Game2048.StepPositioned | src/games/game-2048.ts:220-249 | one cell of the traversal keeps every tile recording the cell it sits on |
| Game2048.RunPositioned | src/games/game-2048.ts:216-251 | every prefix of the traversal keeps tiles on their recorded cells |
| Game2048.TraversalPositioned | src/games/game-2048.ts:206-251 | after a move every tile still records the cell it sits on |
| Game2048.EmptyCellsUpTo | src/games/game-2048.ts:106-111 | every collected cell is on the board and empty |
| Game2048.EmptyCellsUpToComplete | src/games/game-2048.ts:106-111 | every empty cell the loops have passed is collected |
| Game2048.EmptyCellsExactly | src/games/game-2048.ts:106-111 | the collected cells are exactly the empty cells of the board |
| Game2048.NewValue | src/games/game-2048.ts:117 | a new tile is worth 2 or 4 |
| Game2048.AddTile | src/games/game-2048.ts:105-123 | adding a tile keeps a 4 by 4 board |
| Game2048.Placed | src/games/game-2048.ts:114-122 | the new tile is unmerged, records its cell and takes the drawn value, and no other cell changes |
| Game2048.AddTileFacts | src/games/game-2048.ts:105-123 | a full board is left as it is; otherwise exactly one empty cell receives a new tile |
| Game2048.AddTileReachesEvery | src/games/game-2048.ts:114 | every empty cell can receive the new tile |
| Game2048.AddTileAt | src/games/game-2048.ts:114 | a draw below the number of empty cells picks that empty cell |
| Game2048.AddTileKeepsValid | src/games/game-2048.ts:105-123 | the new tile keeps tiles on their cells and values positive, and adds its value to the total |
| Game2048.KeyVector | src/games/game-2048.ts:394-405 | exactly the eight mapped keys have a direction, each a unit vector |
| Game2048.KeysCoverDirections | src/games/game-2048.ts:394-403 | the arrow and the letter key of each direction give the same vector, and each of the four directions has its keys |
| Game2048.Game2048.constructor | src/games/game-2048.ts:30-86 | a new game holds an empty board with two added tiles, score 0, not won and not over, and the stored best score (0 when absent) |
| Game2048.Game2048.Restart | src/games/game-2048.ts:92-103 | `restart` empties the board, adds two tiles, resets score and flags and keeps the best score |
| Game2048.Game2048.AddRandomTile | src/games/game-2048.ts:105-123 | the in-place loops and write agree with AddTile |
| Game2048.Game2048.UpdateScore | src/games/game-2048.ts:349-361 | the best score follows the score upwards and never falls |
| Game2048.Game2048.KeepPlaying | src/games/game-2048.ts:381-384 | Keep Playing hides the message and clears `won` |
| Game2048.Game2048.FindFarthestPosition | src/games/game-2048.ts:302-315 | the do-while loop returns the farthest position and the cell after it |
| Game2048.Game2048.BuildTraversals | src/games/game-2048.ts:287-300 | the traversal of each axis is 0..3, reversed when the vector's component is 1 |
| Game2048.Game2048.PrepareTiles | src/games/game-2048.ts:270-278 | the in-place loops agree with Cleared |
| Game2048.Game2048.ProcessCell | src/games/game-2048.ts:220-249 | one pass of the inner loop agrees with the traversal step, the unchecked read included |
| Game2048.Game2048.VisitCell | src/games/game-2048.ts:217-249 | processing the n-th cell extends the traversal by one cell |
| Game2048.Game2048.MergeTiles | src/games/game-2048.ts:228-241 | the in-place merge agrees with Merged |
| Game2048.Game2048.MoveTileTo | src/games/game-2048.ts:242-247 | the in-place slide agrees with Slid |
| Game2048.Game2048.Traverse | src/games/game-2048.ts:212-251 | `prepareTiles` and the nested loops agree with the traversal, an abort leaving the board as it then is |
| Game2048.Game2048.TraverseColumn | src/games/game-2048.ts:217-250 | the inner loop for one column extends the traversal by four cells, or ends it at an abort |
| Game2048.Game2048.CellsAvailable | src/games/game-2048.ts:325-332 | the loops report an empty cell exactly when the board has one |
| Game2048.Game2048.TileMatchesAvailable | src/games/game-2048.ts:334-347 | the loops report a match exactly when two neighbouring tiles are equal |
| Game2048.Game2048.MovesAvailable | src/games/game-2048.ts:321-323 | a move is left exactly when a cell is empty or two neighbours are equal |
| Game2048.Game2048.Move | src/games/game-2048.ts:206-268 | nothing happens once the game is over; otherwise the traversal's board, score and flags are taken, and a move that changed something adds a tile, updates the best score and shows the game-over or win message |
| Game2048.Game2048.HandleKeyDown | src/games/game-2048.ts:390-410 | a mapped key while the game has the focus gives exactly Move's new state for that key's vector with the unchecked read: the traversal's board, score and win flag, then on a real move the added tile, the best score raised to the score, game over iff no move is left and the matching overlay; an unmapped key, or a key while another element has the focus, changes nothing; an abort can only come from a sideways key |
| TetrisBoard.ShapeOf | src/games/tetris.ts:27-35 | each of the seven pieces is a rectangular shape with at least one filled cell |
| TetrisBoard.RotatedIsTetromino | src/games/tetris.ts:278-280 | rotating a piece keeps it a usable piece |
| TetrisBoard.BlankRow | src/games/tetris.ts:383 | a blank row has ten empty cells |
| TetrisBoard.EmptyBoard | src/games/tetris.ts:121-123 | the new board has 22 rows of 10 empty cells |
| TetrisBoard.Rotated | src/games/tetris.ts:278-280 | the rotated shape swaps the dimensions, and its row i is column i of the shape read from the bottom up |
| TetrisBoard.RotateTwice | src/games/tetris.ts:278-280 | two rotations turn the shape upside down |
| TetrisBoard.RotateFour | src/games/tetris.ts:278-280 | four rotations give back the shape |
| TetrisBoard.RotateFilled | src/games/tetris.ts:278-280 | rotation moves filled cell (r, c) to filled cell (c, rows - 1 - r), and no other cell is filled |
| TetrisBoard.CheckCollision | src/games/tetris.ts:234-246 | the nested loops report a collision exactly when a filled cell is off the sides, below the floor or on a locked cell |
| TetrisBoard.AboveTopIsFree | src/games/tetris.ts:234-246 | a piece entirely between the walls and above the top row never collides |
| TetrisBoard.FreeIsAboveFloor | src/games/tetris.ts:234-246 | a piece that does not collide has every filled cell between the walls and above the floor |
| TetrisBoard.FirstFit | src/games/tetris.ts:283-292 | the kick search returns an offset index in range, or the number of offsets when none fits |
| TetrisBoard.FirstFitIsFirst | src/games/tetris.ts:283-292 | the offset found fits, and every offset tried before it collides |
| TetrisBoard.FirstFitStep | src/games/tetris.ts:284-290 | a fitting offset ends the search, and a colliding one passes it on to the next offset |
| TetrisBoard.TurnPiece | src/games/tetris.ts:276-293 | the loop over the kick offsets applies the first offset that fits, and leaves the piece as it was when none does |
| TetrisBoard.Landing | src/games/tetris.ts:295-301 | the landing row is at or below the start and the row under it collides |
| TetrisBoard.LandingReachable | src/games/tetris.ts:297-299 | every row from just below the start down to the landing row is free, so the landing row is reached by single steps |
| TetrisBoard.LandingStays | src/games/tetris.ts:297-299 | a piece already resting on something lands where it is |
| TetrisBoard.LandingRow | src/games/tetris.ts:476-482 | the drop loop of `hardDrop` and `getGhostY` stops at the landing row |
| TetrisBoard.Stamp | src/games/tetris.ts:325-336 | locking writes the colour into every in-bounds cell the piece covers and leaves every other cell as it was |
| TetrisBoard.CheckTopRow | src/games/tetris.ts:339-348 | the scan reports game over exactly when the first visible row holds a locked cell |
| TetrisBoard.RowIsFull | src/games/tetris.ts:380 | the test reports a full row exactly when no cell of it is empty |
| TetrisBoard.BlankRowNotFull | src/games/tetris.ts:383 | a blank row is never full |
| TetrisBoard.Blanks | tetris.ts:305-307 | the padding is n blank rows |
| TetrisBoard.NotFull | tetris.ts:293-300 | dropping the full rows never lengthens the board |
| TetrisBoard.NotFullKeepsAll | tetris.ts:293-300 | without full rows nothing is dropped |
| TetrisBoard.NotFullCons | tetris.ts:293-300 | dropping the full rows works row by row, in order |
| TetrisBoard.DropRow | src/games/tetris.ts:382-383 | removing row `row` and adding a blank row on top shifts every row above it down by one and leaves the rows below in place |
| TetrisBoard.DropRowCount | src/games/tetris.ts:382-384 | removing a full row lowers the number of full rows down to that row, so re-checking the same index terminates |
| TetrisBoard.Sweep | src/games/tetris.ts:377-386 | the clearing loop keeps a 22 by 10 board |
| TetrisBoard.SweepLeavesNoFullRow | src/games/tetris.ts:377-386 | after the clearing loop no row below the buffer is full |
| TetrisBoard.CompactsDrop | src/games/tetris.ts:380-385 | removing a full row keeps the compaction of the rest |
| TetrisBoard.CompactsKeep | src/games/tetris.ts:379-386 | moving past a row that is not full keeps it below the kept rows above |
| TetrisBoard.SweepCompacts | src/games/tetris.ts:377-386 | with no full row in the buffer, the clearing loop keeps exactly the rows that are not full, in order, under blank rows |
| TetrisBoard.Kept | tetris.ts:293-300 | the kept rows are no more than those scanned and each has ten cells |
| TetrisBoard.Compact | tetris.ts:288-308 | the kept rows padded with blank rows on top form a 22 by 10 board |
| TetrisBoard.KeptIsNotFull | tetris.ts:293-300 | with no full row in the buffer, the rows the filter keeps are the rows that are not full |
| TetrisBoard.ClearingAgrees | tetris.ts:288-308 | the canvas game's in-place loop and the React game's filter clear lines alike when the buffer holds no full row: the same board and the same number of cleared rows |
| TetrisCanvas.TetrominoOf | src/games/tetris.ts:133-137 | each copied piece is a usable piece |
| TetrisCanvas.RandomTetromino | src/games/tetris.ts:133-137 | the drawn piece is the piece of the drawn key |
| TetrisCanvas.EveryKindReachable | src/games/tetris.ts:133-137 | each of the seven kinds can be drawn |
| TetrisCanvas.GenerateNextPieces | src/games/tetris.ts:125-131 | the queue holds one drawn piece per draw, in order |
| TetrisCanvas.FreshValid | src/games/tetris.ts:91-120 | the state built before the first spawn is well formed: a 22 by 10 board, a three-piece queue, level equal to lines / 10 + 1 |
| TetrisCanvas.SpawnedValid | src/games/tetris.ts:214-232 | spawning keeps the game well formed |
| TetrisCanvas.ClearedFacts | src/games/tetris.ts:377-413 | clearing leaves no full row below the buffer, adds the cleared rows to `lines`, scores 100 times the level per row, keeps the high score at or above the score and never lowers the level |
| TetrisCanvas.LockedFacts | src/games/tetris.ts:322-353 | locking writes the colour into the cells the piece covers; a filled top visible row ends the game with nothing cleared or spawned; otherwise the lines are cleared and holding is allowed again |
| TetrisCanvas.RotationFacts | src/games/tetris.ts:276-293 | a rotation turns the piece at the first kick offset that fits, every earlier offset colliding; when all six collide nothing changes |
| TetrisCanvas.HardDropLandsOnGhost | src/games/tetris.ts:295-302 | a hard drop locks the piece on the row the ghost shows: the lowest row reached by free single steps, the next one colliding |
| TetrisCanvas.HoldOnce | src/games/tetris.ts:304-320 | holding works once per spawned piece: a second hold before the next spawn changes nothing |
| TetrisCanvas.HoldSwapUnchecked | src/games/tetris.ts:307-313 | a held piece comes back at column 4, row 0 without a collision test, so it never ends the game even where it overlaps the board |
| TetrisCanvas.CanHoldOnlyAfterSpawn | src/games/tetris.ts:214-232 | only a spawn turns holding back on; moving, rotating, pausing and a plain drop do not |
| TetrisCanvas.DroppedValid | src/games/tetris.ts:264-274 | a soft drop keeps the game well formed |
| TetrisCanvas.HardDroppedValid | src/games/tetris.ts:295-302 | a hard drop keeps the game well formed |
| TetrisCanvas.ShiftedValid | src/games/tetris.ts:248-262 | a sideways move keeps the game well formed and the score |
| TetrisCanvas.RotationValid | src/games/tetris.ts:276-293 | a rotation keeps the game well formed and the score |
| TetrisCanvas.KeyPressedValid | src/games/tetris.ts:165-206 | every key keeps the game well formed and never lowers the score |
| TetrisCanvas.LockedScore | src/games/tetris.ts:322-353 | locking never lowers the score |
| TetrisCanvas.DroppedScore | src/games/tetris.ts:264-274 | a soft drop never lowers the score |
| TetrisCanvas.TickedValid | src/games/tetris.ts:446-453 | the drop timer keeps the game well formed |
| TetrisCanvas.RestartedFacts | src/games/tetris.ts:651-671 | `reset` keeps only the high score, starts at level 1 with nothing held, and spawns the head of a fresh three-piece queue |
| TetrisCanvas.TetrisGame.constructor | src/games/tetris.ts:91-120 | a new game is an empty board, three queued pieces and the stored high score, then the first spawn |
| TetrisCanvas.TetrisGame.SpawnPiece | src/games/tetris.ts:214-232 | the in-place spawn agrees with Spawned |
| TetrisCanvas.TetrisGame.MoveLeft | src/games/tetris.ts:248-254 | the in-place move agrees with Shifted by -1 |
| TetrisCanvas.TetrisGame.MoveRight | src/games/tetris.ts:256-262 | the in-place move agrees with Shifted by 1 |
| TetrisCanvas.TetrisGame.Shift | src/games/tetris.ts:248-262 | a sideways move agrees with Shifted |
| TetrisCanvas.TetrisGame.MoveDown | src/games/tetris.ts:264-274 | `moveDown` reports whether the piece could go down and agrees with Dropped |
| TetrisCanvas.TetrisGame.Rotate | src/games/tetris.ts:276-293 | the in-place rotation agrees with Rotation |
| TetrisCanvas.TetrisGame.HardDrop | src/games/tetris.ts:295-302 | the in-place hard drop agrees with HardDropped |
| TetrisCanvas.TetrisGame.GetGhostY | src/games/tetris.ts:476-483 | the ghost loop returns the landing row |
| TetrisCanvas.TetrisGame.Hold | src/games/tetris.ts:304-320 | the in-place hold agrees with Holding |
| TetrisCanvas.TetrisGame.LockPiece | src/games/tetris.ts:322-353 | the in-place lock agrees with Locked |
| TetrisCanvas.TetrisGame.StampPiece | src/games/tetris.ts:325-336 | the nested loops write the piece's colour exactly as Stamp does |
| TetrisCanvas.TetrisGame.ClearLines | src/games/tetris.ts:377-413 | the in-place clearing agrees with Cleared |
| TetrisCanvas.TetrisGame.SweepRows | src/games/tetris.ts:379-386 | the loop over rows 21 down to the buffer agrees with Sweep |
| TetrisCanvas.TetrisGame.TogglePause | src/games/tetris.ts:415-425 | the in-place pause toggle agrees with PauseToggled |
| TetrisCanvas.TetrisGame.Tick | src/games/tetris.ts:447-451 | the timer callback agrees with Ticked |
| TetrisCanvas.TetrisGame.HandleKeyDown | src/games/tetris.ts:165-206 | the key handler agrees with KeyPressed and keeps the game well formed |
| TetrisCanvas.TetrisGame.Reset | src/games/tetris.ts:651-671 | `reset` agrees with Restarted and keeps the game well formed |
| TetrisReact.TetrominoOf | tetris.ts:12-58 | each piece of the table is a usable piece |
| TetrisReact.RandomTetromino | tetris.ts:68-72 | the drawn piece is the piece of the drawn key |
| TetrisReact.GenerateNextPieces | tetris.ts:74-76 | the queue holds one drawn piece per draw, in order |
| TetrisReact.PlaceableIff | tetris.ts:241-266 | a piece can be placed exactly when it does not collide and no filled cell is above the top row, which the collision test lets through |
| TetrisReact.CheckedStep | tetris.ts:245-259 | visiting one more cell of the shape clears `validPlacement` exactly when that cell is filled and not free |
| TetrisReact.CheckedNextRow | tetris.ts:245-246 | the end of a shape row moves the check on to the next row |
| TetrisReact.CopiedStep | tetris.ts:248-258 | a filled, in-bounds, empty cell gets the colour, and the copy is otherwise left as the board was |
| TetrisReact.CopiedNextRow | tetris.ts:245-246 | the end of a shape row moves the copy on to the next row |
| TetrisReact.PlaceCell | tetris.ts:247-259 | one cell of the `forEach` loops extends both the copy and the validity check by one cell |
| TetrisReact.PlaceOnCopy | tetris.ts:241-260 | `validPlacement` holds exactly when the piece can be placed, and then the copy is the board with the piece written in |
| TetrisReact.FullRows | tetris.ts:293-300 | every scanned row goes either to `linesCleared` or to `updatedBoard` |
| TetrisReact.FullRowsAreFull | tetris.ts:293-300 | every index in `linesCleared` is a full row at or below the first visible row |
| TetrisReact.FullRowsIncreasing | tetris.ts:293-300 | `linesCleared` is in increasing order |
| TetrisReact.FullRowsComplete | tetris.ts:293-300 | every full row at or below the first visible row is in `linesCleared` |
| TetrisReact.SplitRows | tetris.ts:293-300 | the first loop of `clearLines` splits the rows into `linesCleared` and `updatedBoard` |
| TetrisReact.PadRows | tetris.ts:305-307 | the timer pads the kept rows with blank rows on top |
| TetrisReact.VisibleRows | tetris.ts:303 | `completedRows` counts the cleared rows from the first visible row |
| TetrisReact.ClearLines | tetris.ts:288-322 | `clearLines` queues the clearing timer as Scheduled says |
| TetrisReact.FireTimer | tetris.ts:304-320 | the timer's callback agrees with Fired |
| TetrisReact.SpawnNewPiece | tetris.ts:327-345 | the spawn agrees with SpawnedFrom |
| TetrisReact.PlacePieceAtPosition | tetris.ts:238-281 | the placement agrees with Placed |
| TetrisReact.Shift | tetris.ts:170-180 | a sideways move agrees with Shifted |
| TetrisReact.MoveDown | tetris.ts:182-189 | `moveDown` agrees with MovedDown |
| TetrisReact.Rotate | tetris.ts:193-224 | the rotation agrees with Rotation |
| TetrisReact.HardDrop | tetris.ts:226-237 | the hard drop agrees with HardDropped |
| TetrisReact.HoldPiece | tetris.ts:148-168 | the hold agrees with Holding |
| TetrisReact.Tick | tetris.ts:361-386 | the drop interval agrees with Ticked |
| TetrisReact.HandleKeyPress | tetris.ts:389-422 | the key handler agrees with KeyPressed |
| TetrisReact.SpawnEffect | tetris.ts:351-355 | the effect that spawns when there is no piece agrees with Rendered |
| TetrisReact.SpawnedValid | tetris.ts:327-345 | a spawn keeps the state well formed and the queue three pieces long, whatever board its collision test used |
| TetrisReact.ScheduledValid | tetris.ts:288-322 | queuing the timer changes nothing else: board, piece, queue, score and lines stay |
| TetrisReact.ScheduledQueues | tetris.ts:288-322 | a placement queues one timer exactly when a row at or below the first visible row is full; the timer holds the kept rows, their count and the score, lines and level as rendered |
| TetrisReact.ClearedBoardAgrees | tetris.ts:288-322 | the timer's padded rows are what the canvas game's loop leaves, with the same count |
| TetrisReact.FiredFacts | tetris.ts:304-320 | the timer scores 100 points per row whatever the level, adds the lines, keeps the high score at least the new score and raises the level by exactly one when the new line count's tens exceed the captured level minus one |
| TetrisReact.FiredIgnoresBoard | tetris.ts:305-308 | the timer writes the rows it captured, whatever the board is when it fires |
| TetrisReact.PlacedRejects | tetris.ts:275-277 | a piece that does not fit ends the game with board, piece and timers as they were |
| TetrisReact.PlacedWrites | tetris.ts:241-266 | a piece that fits changes exactly the cells it covers, to its colour |
| TetrisReact.PlacedOutcome | tetris.ts:264-274 | after a fitting placement a filled first visible row ends the game with nothing queued or spawned; otherwise holding is on again and the clearing timer, if any, is queued |
| TetrisReact.PlacedValid | tetris.ts:238-281 | a placement keeps the state well formed and leaves score, lines and the held piece alone |
| TetrisReact.PlaceThenFire | tetris.ts:238-322 | with nothing else in between, the timer of a placement leaves the placed board with its full rows cleared and 100 more points per cleared row |
| TetrisReact.HoldingFacts | tetris.ts:148-168 | nothing happens while holding is off or without a piece; a held piece that does not fit ends the game; a swap brings the held piece in at (4, 0); every hold that goes through turns holding off |
| TetrisReact.CanHoldOnlyAfterPlacement | tetris.ts:271 | only a placement turns holding back on |
| TetrisReact.HardDropLands | tetris.ts:226-237 | a hard drop places the piece on the landing row, the lowest row reached by free single steps |
| TetrisReact.TickIsMoveDown | tetris.ts:361-386 | while the game runs the interval's tick is `moveDown` |
| TetrisReact.MovedDownFacts | tetris.ts:182-189 | a soft drop keeps the state well formed and leaves score and lines alone |
| TetrisReact.RotationValid | tetris.ts:193-224 | a rotation keeps the state well formed and leaves score and lines alone |
| TetrisReact.HardDroppedFacts | tetris.ts:226-237 | a hard drop keeps the state well formed and leaves score and lines alone |
| TetrisReact.KeyPressedFacts | tetris.ts:389-422 | keys keep the state well formed and never change score or lines: only the clearing timer does |
| TetrisReact.RestartedFacts | tetris.ts:436-449 | `resetGame` keeps the high score and does not cancel pending timers; the next render spawns the head of a fresh three-piece queue |
| TetrisReact.Placed | tetris.ts:238-281 | defines `placePieceAtPosition`; PlacedRejects, PlacedWrites, PlacedOutcome and PlacedValid state its properties |
| TetrisReact.Fired | tetris.ts:304-320 | defines the line-clear timer's callback; FiredFacts and FiredIgnoresBoard state its properties |
| TicTacToe.EmptyBoard | src/games/tic-tac-toe.ts:412 | the new board has nine empty cells |
| TicTacToe.LineAt | src/games/tic-tac-toe.ts:242-246 | every line of the table names three cells of the board |
| TicTacToe.ScanLinesFacts | src/games/tic-tac-toe.ts:248-259 | the scan stops at the first winning line, or runs to the end and then reports a tie exactly for a full board |
| TicTacToe.CheckWinnerFacts | src/games/tic-tac-toe.ts:241-260 | the first winning line of the table is reported with its mark; a tie exactly when no line wins and all nine cells are marked; no result otherwise |
| TicTacToe.EmptiesUpTo | src/games/tic-tac-toe.ts:294 | the listed indices are the empty cells, in increasing order |
| TicTacToe.EmptiesComplete | src/games/tic-tac-toe.ts:294 | every empty cell is listed |
| TicTacToe.PlaceUpTo | src/games/tic-tac-toe.ts:270-272 | marking an empty cell removes exactly that cell from the list of empty ones |
| TicTacToe.PlaceShrinks | src/games/tic-tac-toe.ts:270-272 | marking an empty cell leaves one empty cell fewer, so the search terminates |
| TicTacToe.FullHasNoEmpties | src/games/tic-tac-toe.ts:294-295 | a full board lists no empty cell |
| TicTacToe.EmptiesIffNotFull | src/games/tic-tac-toe.ts:294-295 | there is an empty cell to list exactly when the board is not full |
| TicTacToe.ValueInRange | src/games/tic-tac-toe.ts:262-291 | minimax never returns an infinity, and a win found k plies further scores 10 - depth - k for O and its negation for X |
| TicTacToe.BestInRange | src/games/tic-tac-toe.ts:268-289 | the running best of the minimax loops stays finite once a cell was tried |
| TicTacToe.Candidates | src/games/tic-tac-toe.ts:315-324 | one minimax score per candidate cell |
| TicTacToe.ArgBestFacts | src/games/tic-tac-toe.ts:315-324 | the loop ends on the first position of the greatest score |
| TicTacToe.TryOInRange | src/games/tic-tac-toe.ts:316-318 | the score of each candidate cell for O is finite |
| TicTacToe.DeliberateFacts | src/games/tic-tac-toe.ts:312-325 | the search picks the lowest-numbered empty cell of greatest minimax score |
| TicTacToe.ChosenMoveFacts | src/games/tic-tac-toe.ts:293-326 | -1 exactly when no cell is empty, an empty cell otherwise; on hard an empty board, or one whose single mark is off the centre, gets the centre; a move that is not random has the greatest minimax score |
| TicTacToe.PlayedFacts | src/games/tic-tac-toe.ts:200-238 | a marked cell is ignored; otherwise the mark of the player to move is written, a win or tie raises exactly one counter and keeps the player, and an open board passes the move |
| TicTacToe.ClickedFacts | src/games/tic-tac-toe.ts:178-197 | a click that is not ignored marks the cell in row y / 200 and column x / 200 when the point lies on the canvas |
| TicTacToe.RightEdgeWraps | src/games/tic-tac-toe.ts:191-196 | at x = 600 the column is 3 and the index falls on the first cell of the next row |
| TicTacToe.OpponentMovedFacts | src/games/tic-tac-toe.ts:229-235 | the opponent's timer marks an empty cell with O; on a full board it changes nothing |
| TicTacToe.RestartedFacts | src/games/tic-tac-toe.ts:411-419 | `resetGame` empties the board, clears the result, gives X the move and keeps the scores, the mode and the difficulty |
| TicTacToe.TicTacToeGame.constructor | src/games/tic-tac-toe.ts:32-77 | a new game against the opponent at the saved difficulty, with the menu shown |
| TicTacToe.TicTacToeGame.Minimax | src/games/tic-tac-toe.ts:262-291 | `minimax` marks and unmarks cells in place, leaves the board as it was and returns the minimax value |
| TicTacToe.TicTacToeGame.GetBestMove | src/games/tic-tac-toe.ts:293-326 | `getBestMove` leaves the board as it was and returns the chosen move |
| TicTacToe.TicTacToeGame.MakeMove | src/games/tic-tac-toe.ts:200-238 | the in-place move agrees with Played |
| TicTacToe.TicTacToeGame.HandleClick | src/games/tic-tac-toe.ts:178-197 | the in-place click agrees with Clicked |
| TicTacToe.TicTacToeGame.OpponentTurn | src/games/tic-tac-toe.ts:229-235 | the opponent's timer agrees with OpponentMoved |
| TicTacToe.TicTacToeGame.ShowGameOver | src/games/tic-tac-toe.ts:372-403 | the win timer only shows the result card |
| TicTacToe.TicTacToeGame.ResetGame | src/games/tic-tac-toe.ts:411-419 | `resetGame` agrees with Restarted |
| TicTacToe.TicTacToeGame.StartGame | src/games/tic-tac-toe.ts:405-409 | `startGame` sets the mode and restarts |
| TicTacToe.TicTacToeGame.BackToMenu | src/games/tic-tac-toe.ts:397-402 | the Menu button clears the result and shows the menu, the board staying as it was |
| TicTacToe.TicTacToeGame.ChooseDifficulty | src/games/tic-tac-toe.ts:360-366 | a difficulty button sets the difficulty and nothing else |
| TicTacToe.CheckWinner | src/games/tic-tac-toe.ts:241-260 | defines `checkWinner` as the scan of the eight lines in table order; CheckWinnerFacts states its result |
| TicTacToe.Value | src/games/tic-tac-toe.ts:262-291 | defines the score `minimax` returns, maximising for O and minimising for X over the empty cells; ValueInRange states its range |
| TicTacToe.ChosenMove | src/games/tic-tac-toe.ts:293-326 | defines the move `getBestMove` returns for a roll and a pick; ChosenMoveFacts states its properties |
| WindowGeometry.PairLetters | src/windows/manager.ts:404-407 | two zones checked in turn append their letters in that order, each only when its zone holds |
| WindowGeometry.LettersExact | src/windows/manager.ts:396-408 | `getResizeDir` contains n, s, w or e exactly when the point lies in the top, bottom, left or right 10px zone |
| WindowGeometry.LettersOrdered | src/windows/manager.ts:404-407 | the direction lists its letters in the order n, s, w, e, none twice |
| WindowGeometry.CursorNamesLetters | src/windows/manager.ts:382-392 | where no point is in two opposite zones, `updateWindowCursor` picks the corner or edge cursor named by the zones' letters, and "default" off every edge |
| WindowGeometry.CursorNamesResizeDir | src/windows/manager.ts:371-408 | on a window at least 20px wide and high, the cursor hint names exactly the edges a press at that point would resize |
| WindowGeometry.Resized | src/windows/manager.ts:269-293 | a dragged east or west edge leaves a width of at least 400px, a south or north one a height of at least 200px; a west or north drag keeps the opposite edge where it was; undragged sides keep their style |
| WindowGeometry.ResizeFollowsPointer | src/windows/manager.ts:277-292 | above the minimum, an east or south edge follows the pointer's offset from where the resize started, and a west or north edge moves with the pointer |
| WindowGeometry.Dragged | src/windows/manager.ts:245-253 | the dragged window's left is the pointer less the grab offset relative to the container, and its top the same but never above 0 |
| WindowGeometry.Toggled | src/windows/manager.ts:141-179 | maximize saves the inline style and applies the full-size style (taller on a viewport under 768px); either way the flag flips |
| WindowGeometry.ToggleTwice | src/windows/manager.ts:141-179 | maximizing then restoring gives back the window's style, the saved copy remaining |
| WindowGeometry.Momentum | src/windows/manager.ts:300-336 | no throw when the speed is under 0.2px/ms or motion is reduced; otherwise the top moves by the velocity times 120 capped at 80px, clamped to between 0 and 100px above the container's bottom |
| WindowGeometry.MomentumBounded | src/windows/manager.ts:312-325 | a throw from inside the clamping range moves a window by at most 80px along each axis |
| WindowManager.Deactivated | src/windows/manager.ts:29-31 | taking `active-window` from every window keeps the set of open windows |
| WindowManager.Front | src/windows/manager.ts:25-34 | bringing a window to front keeps the set of open windows |
| WindowManager.ToggledIn | src/windows/manager.ts:141-144 | `toggleMaximize` changes no window but `id`, and nothing for an id that is not open |
| WindowManager.Manager.constructor | src/windows/manager.ts:8-22 | the module's variables start idle: no drag, no resize, no pending frame |
| WindowManager.Manager.Register | src/main.ts:1831-1836 | opening a window adds its entry, not maximized and with no saved style, and keeps the state valid |
| WindowManager.Manager.DeactivateAll | src/windows/manager.ts:29-31 | the loop over all windows agrees with Deactivated |
| WindowManager.Manager.BringToFront | src/windows/manager.ts:25-34 | an open window gets the next z-index and is the only active one; an id that is not open changes nothing and does not advance the counter |
| WindowManager.Manager.ToggleMaximize | src/windows/manager.ts:141-179 | the in-place toggle agrees with ToggledIn |
| WindowManager.Manager.StartDrag | src/windows/manager.ts:182-208 | `startDrag` agrees with DragStarted and advances the z-index counter exactly when a drag begins |
| WindowManager.Manager.HandleMove | src/windows/manager.ts:219-258 | a drag move records the velocity and the pending position and schedules at most one frame |
| WindowManager.Manager.HandleResize | src/windows/manager.ts:261-297 | a resize move records the pending position and schedules at most one frame |
| WindowManager.Manager.MouseMove | src/windows/manager.ts:436-442 | the shared mousemove handler routes to the drag, else to the resize |
| WindowManager.Manager.AnimationFrame | src/windows/manager.ts:241-257 | the frame callback applies the pending drag or resize position and clears the request |
| WindowManager.Manager.HandleEnd | src/windows/manager.ts:339-358 | releasing a drag throws the window, ends the drag and cancels the pending frame |
| WindowManager.Manager.HandleMouseUp | src/windows/manager.ts:445-452 | the mouseup handler ends the drag and the resize |
| WindowManager.Manager.UpdateWindowCursor | src/windows/manager.ts:371-393 | the cursor hint agrees with CursorUpdated: skipped while busy or throttled, otherwise set and the throttle armed |
| WindowManager.Manager.ThrottleExpired | src/windows/manager.ts:375 | the 50ms timer clears the throttle |
| WindowManager.Manager.HandleResizeStart | src/windows/manager.ts:411-431 | a press on an edge of a window that is not maximized starts a resize from its rectangle and the pointer |
| WindowManager.FrontIsOnTop | src/windows/manager.ts:25-34 | with no window above the counter, the window brought to front is strictly above every other and alone active |
| WindowManager.MaximizedStaysPut | src/windows/manager.ts:183 | a maximized window starts neither a drag nor a resize |
| WindowManager.FrontAndToggleKeepValid | src/windows/manager.ts:141-179 | bringing to front and maximizing keep every maximized window's saved style and the drag flags in step |
| WindowManager.StartsKeepValid | src/windows/manager.ts:182-208 | starting a drag or a resize keeps the state valid |
| WindowManager.EventsKeepValid | src/windows/manager.ts:434-453 | moves, frames, releases and cursor hints keep the state valid |
| WindowManager.DragKeepsHeaderReachable | src/windows/manager.ts:249-250 | a drag frame never puts a window's top above its container |
| WindowManager.LatestMoveWins | src/windows/manager.ts:236-238 | two moves before a frame draw what the later one alone would |
| WindowManager.ResizeFromStart | src/windows/manager.ts:261-297 | a resize frame depends only on the start rectangle, the start pointer and the latest pointer, and keeps at least 400 by 200 along the dragged edges |
| WindowManager.ReleaseCancels | src/windows/manager.ts:350-357 | after mouseup nothing of the drag or resize remains and a frame changes nothing |
| WindowManager.CursorQuietWhileBusy | src/windows/manager.ts:372-375 | the cursor hint is untouched during a drag or resize and twice within the throttle |
| WindowManager.MaximizeRoundTrip | src/windows/manager.ts:141-179 | maximize then restore gives the window its style back |
| WindowManager.DragStarted | src/windows/manager.ts:182-208 | defines `startDrag` on the manager's state; Manager.StartDrag is proved against it |
| WindowManager.MouseMoved | src/windows/manager.ts:436-442 | defines the shared mousemove handler: a drag frame, else a resize frame, else nothing; Manager.MouseMove is proved against it |
| WindowManagerJs.Toggle | src/windows/manager.js:126-162 | `toggleMaximize` throws exactly when it restores an open, maximized window with no saved style; otherwise it maximizes or restores as in `manager.ts` |
| WindowManagerJs.Moved | src/windows/manager.js:188-208 | `handleMove` throws exactly when a drag is under way and its id is no longer open |
| WindowManagerJs.Ended | src/windows/manager.js:211-217 | `handleEnd` throws, before clearing anything, exactly when the dragged id is no longer open |
| WindowManagerJs.ManagerJs.constructor | src/windows/manager.js:7-16 | the module's variables start idle |
| WindowManagerJs.ManagerJs.Register | src/main.ts:1831-1836 | opening a window adds its entry and keeps the state valid |
| WindowManagerJs.ManagerJs.BringToFront | src/windows/manager.js:19-27 | as in `manager.ts`: the next z-index and the only active window, nothing for an id not open |
| WindowManagerJs.ManagerJs.ToggleMaximize | src/windows/manager.js:126-162 | the in-place toggle agrees with Toggle and changes nothing when it throws |
| WindowManagerJs.ManagerJs.StartDrag | src/windows/manager.js:165-185 | `startDrag` agrees with DragStarted and advances the z-index counter exactly when a drag begins |
| WindowManagerJs.ManagerJs.HandleMove | src/windows/manager.js:188-208 | the in-place move agrees with Moved and changes nothing when it throws |
| WindowManagerJs.ManagerJs.HandleEnd | src/windows/manager.js:211-217 | the in-place release agrees with Ended and changes nothing when it throws |
| WindowManagerJs.ManagerJs.ResizeMove | src/windows/manager.js:295-320 | the resize listener agrees with ResizeListener and changes nothing when it throws |
| WindowManagerJs.ManagerJs.MouseMove | src/windows/manager.js:289-320 | both `mousemove` listeners in the order they were added agree with MouseMoved |
| WindowManagerJs.ManagerJs.MouseUp | src/windows/manager.js:289-331 | both `mouseup` listeners in the order they were added end the drag and the resize |
| WindowManagerJs.ManagerJs.UpdateWindowCursor | src/windows/manager.js:230-248 | the cursor hint agrees with CursorUpdated |
| WindowManagerJs.ManagerJs.HandleResizeStart | src/windows/manager.js:266-286 | a press on an edge of a window that is not maximized starts a resize |
| WindowManagerJs.RestoreNeverThrows | src/windows/manager.js:153-159 | on a valid state the unguarded restore never throws, and it changes the windows as the guarded `manager.ts` version does |
| WindowManagerJs.MaximizeRoundTrip | src/windows/manager.js:126-162 | maximize then restore gives the window its style back |
| WindowManagerJs.MaximizedStaysPut | src/windows/manager.js:165-166 | a maximized window starts neither a drag nor a resize |
| WindowManagerJs.DragKeepsHeaderReachable | src/windows/manager.js:199-200 | a drag never puts the window's top above its container |
| WindowManagerJs.ResizeBounds | src/windows/manager.js:295-320 | a resize keeps at least 300 by 200 along the dragged edges, keeps the opposite edge of a west or north resize, and depends only on the start and the current pointer |
| WindowManagerJs.ResizeAgreesAboveMinimum | src/windows/manager.js:301-302 | above 400px wide the 300px minimum resizes as the `manager.ts` one does |
| WindowManagerJs.ToggleKeepsValid | src/windows/manager.js:126-162 | maximizing and restoring keep the state valid and never throw on it |
| WindowManagerJs.StartsKeepValid | src/windows/manager.js:165-185 | starting a drag or a resize keeps the state valid |
| WindowManagerJs.EventsKeepValid | src/windows/manager.js:188-217 | moves, releases and cursor hints keep the state valid, and neither drag handler throws while the dragged window is open |
| WindowManagerJs.CursorDuringDrag | src/windows/manager.js:230-248 | unlike `manager.ts`, the cursor hint follows the pointer during a drag |
| WindowManagerJs.ResizeListener | src/windows/manager.js:295-320 | defines the resize listener, a throw for a resize started without its start position, rectangle or direction; ResizeBounds and ResizeAgreesAboveMinimum state its properties |
| Finder.FinderApp.constructor | src/main.ts:2248-2252 | the Finder starts at /home/guest with that one history entry and nothing selected |
| Finder.FinderApp.Navigate | src/main.ts:2258-2272 | the in-place `finderNavigate` agrees with Navigated |
| Finder.FinderApp.Back | src/main.ts:2274-2280 | the in-place `finderBack` agrees with Backed and changes only the index and the path |
| Finder.FinderApp.Forward | src/main.ts:2282-2288 | the in-place `finderForward` agrees with Forwarded and changes only the index and the path |
| Finder.FinderApp.Up | src/main.ts:2290-2297 | the in-place `finderUp` agrees with Upped |
| Finder.NavigateTruncates | src/main.ts:2258-2272 | navigating drops the forward entries, appends the path exactly when it differs from the current one, points the index at the last entry, clears the selection and keeps the index valid |
| Finder.BackForwardKeepValid | src/main.ts:2274-2288 | back and forward keep the history, move the index by one when they can and keep it valid |
| Finder.BackForwardRoundTrip | src/main.ts:2274-2288 | back then forward, or forward then back, returns to the same state when the first step moved |
| Finder.BackAfterNavigate | src/main.ts:2258-2280 | after navigating somewhere new, back returns to the previous path |
| Finder.PartsOfJoined | src/main.ts:2291-2294 | splitting "/" joined with non-empty, slash-free components gives those components back |
| Finder.NonEmptyKeeps | src/main.ts:2291 | the `filter(p => p)` step keeps a list without empty strings as it is |
| Finder.UpDropsLastComponent | src/main.ts:2290-2297 | `finderUp` goes to the path with the last component removed, and changes nothing exactly when the path has none |
| Finder.UpFromTop | src/main.ts:2290-2297 | "/" has no parent, and a one-component path has "/" as its parent |
| Finder.FinderRender | src/main.ts:2464-2481 | the lookup loop with its `break` lists the entries of the directory the path names, and "No items" for a missing path or a file |
| Finder.WalkAppend | src/main.ts:2467-2474 | walking two parts in a row is walking the first and then the second from where it led |
| Finder.WalkAgreesWithResolve | src/main.ts:2464-2481 | without a "root" component the pane lists exactly the directory the terminal's path resolution finds |
| Finder.RootIsNotSkipped | src/main.ts:2467-2474 | unlike the terminal, the walk does not skip a "root" component, so "/root/…" shows no items where the terminal resolves it |
| Finder.FileShowsNothing | src/main.ts:2476-2481 | a path through a file shows no items whatever follows |
| Finder.Navigated | src/main.ts:2258-2272 | defines `finderNavigate` on the history; NavigateTruncates and BackAfterNavigate state its properties |
| Finder.Walk | src/main.ts:2467-2474 | defines the lookup loop of `finderRender`, one path component at a time; WalkAppend, WalkAgreesWithResolve and RootIsNotSkipped state its properties |
| Desktop.JsRem | src/main.ts:235 | JavaScript's `%`: a non-negative dividend leaves a remainder in [0, n), a negative one in (-n, 0] |
| Desktop.CycleWallpaper | src/main.ts:234-237 | the wallpaper button moves the index to the next wallpaper, wrapping at the end |
| Desktop.SetWallpaper | src/main.ts:240-245 | an index of an existing wallpaper is taken; any other leaves the index as it was |
| Desktop.CycleStaysInRange | src/main.ts:234-237 | from a valid index, cycling gives a valid index: the next one, or 0 after the last |
| Desktop.CycleOrbit | src/main.ts:234-237 | k presses from a valid index lead to (i + k) mod n, so every wallpaper comes round |
| Desktop.Filter | src/main.ts:2575-2577 | the search result is no longer than the app list |
| Desktop.VaultHits | src/main.ts:417-431 | the vault part of a search is no longer than the vault and holds only vault entries whose lower-cased title or description contains the term |
| Desktop.AppHits | src/main.ts:406-415 | one app hit per matching app, in order |
| Desktop.FilterMembers | src/main.ts:2575-2577 | the launchpad keeps exactly the apps whose lower-cased title or id contains the term |
| Desktop.FilterAppend | src/main.ts:2575-2577 | filtering keeps the list order: filtering a concatenation filters each part |
| Desktop.EmptyQueryShowsAll | src/main.ts:2565-2567 | `initLaunchpad` with the empty query shows every app |
| Desktop.QueryCaseIgnored | src/main.ts:2574 | the launchpad query's case does not matter |
| Desktop.SpotlightAppsFirst | src/main.ts:362-440 | a query that is blank after lower-casing and trimming shows the app grid; otherwise the matching apps come first, in order, before any vault entry |
| Desktop.DesktopPlacement | src/main.ts:1746-1783 | on a desktop a new window is no taller than its configured height or the room above the dock, is at least 10px from the top, clears the dock when there is room, and starts at or right of its centred position |
| Desktop.MobilePlacement | src/main.ts:1746-1783 | on a phone a new window sits at the top left, fills the container's width and takes the full-height style, whatever its configured size |
| Desktop.NewWin | src/main.ts:1831-1836 | the registered window is not maximized, has no saved style, is active and has the z-index it was given |
| Desktop.OpenWindow | src/main.ts:1727-1836 | an open window is restored and nothing else changes; an id without a configuration throws before any change; otherwise the window takes the next z-index and is registered at its computed place |
| Desktop.Retyped | src/main.ts:2109-2118 | the diffing pass keeps the number of spans |
| Desktop.FlipsExactly | src/main.ts:2109-2118 | the animated spans are exactly the existing ones whose character changed, each once, in increasing order |
| Desktop.Clock.constructor | src/main.ts:2076 | the clock starts with no previous text and no spans |
| Desktop.Clock.Update | src/main.ts:2077-2120 | a first render or a change of length rebuilds every span; otherwise only the changed characters are rewritten and flipped; the new text becomes the previous one |
| Desktop.Diff | src/main.ts:2108-2119 | the loop over the new text agrees with Retyped and Flips |
| Desktop.RetypedShowsText | src/main.ts:2108-2119 | spans showing the previous text show the new text after the pass, and the flipped positions are exactly those whose character changed |
| Desktop.RetypedKeepsSame | src/main.ts:2110 | a span whose character did not change is neither rewritten nor flipped |
| Desktop.VaultHitsMembers | src/main.ts:417-431 | a vault entry is listed exactly when it is in the vault and its lower-cased title or description contains the term |
| Desktop.VaultHitsAppend | src/main.ts:417-431 | the vault rows keep the vault's order: the rows of a concatenation are the rows of each part |
| Desktop.SpotlightVault | src/main.ts:362-437 | after the app rows come exactly the rows of the matching vault entries, in vault order; "No results" appears exactly when the term is non-blank and neither an app nor a vault entry matches |
| Desktop.Spotlight | src/main.ts:362-440 | defines `handleSearch`'s view: the app grid, the results, or "No results"; SpotlightAppsFirst and SpotlightVault state its properties |
| Desktop.Launchpad | src/main.ts:2565-2577 | defines `initLaunchpad`'s filter on the lower-cased query; FilterMembers, EmptyQueryShowsAll and QueryCaseIgnored state its properties |
| Desktop.Place | src/main.ts:1746-1783 | defines where `openWindow` puts a new window; DesktopPlacement and MobilePlacement state its bounds |
| NetworkTopology.DeviceTypePrecedence | src/apps/network-topology.ts:128-139 | the rules apply in order router, firewall, wireless, switch, server: each type is chosen exactly when its rule holds and every earlier one fails, and "unknown" exactly when none holds |
| NetworkTopology.DeviceTypeIgnoresCase | src/apps/network-topology.ts:129-131 | the capability, platform and name are compared without regard to case |
| NetworkTopology.Ids | src/apps/network-topology.ts:145 | the keys of the device map, one per entry, in insertion order |
| NetworkTopology.Set | src/apps/network-topology.ts:156-164 | `Map.set` grows the map by one exactly when the id is new |
| NetworkTopology.SetIds | src/apps/network-topology.ts:156-164 | `Map.set` keeps the keys in place, or appends a new id at the end |
| NetworkTopology.SetAppends | src/apps/network-topology.ts:156-164 | `Map.set` of a new id appends the device |
| NetworkTopology.KeyedByIds | src/apps/network-topology.ts:145 | whether every id is a key once depends only on the list of ids |
| NetworkTopology.SetKeyed | src/apps/network-topology.ts:156-164 | `Map.set` keeps every id a key once |
| NetworkTopology.ParseLLDP | src/apps/network-topology.ts:141-204 | the loop over the lines agrees with LldpTopology |
| NetworkTopology.LldpWellFormed | src/apps/network-topology.ts:141-204 | LLDP parsing keeps device ids unique, ends every link at a listed device, and lists the current local device once a header was seen |
| NetworkTopology.AppendIfAbsent | src/apps/network-topology.ts:172-181 | adding a device unless present keeps the ids unique, keeps every id and adds the new one |
| NetworkTopology.LldpLinkPerRow | src/apps/network-topology.ts:149-195 | a neighbour row of five or more fields adds exactly one trunk link from the current local device to its first field, with the second and fifth fields as ports; a header changes the current device; other lines add nothing |
| NetworkTopology.LldpErrorIffNothingFound | src/apps/network-topology.ts:197-201 | the "No LLDP neighbors" error is reported exactly when no line is a header or a neighbour row |
| NetworkTopology.ParseCDP | src/apps/network-topology.ts:206-269 | the loop over the entries agrees with CdpTopology |
| NetworkTopology.CdpShape | src/apps/network-topology.ts:206-269 | the local device is listed first and every link starts at it |
| NetworkTopology.CdpLinkPerEntry | src/apps/network-topology.ts:234-260 | an entry with a device id, an interface and a port id adds one link, routed exactly when its capabilities mention a router; any other entry adds none |
| NetworkTopology.CdpErrorIffNoNeighbour | src/apps/network-topology.ts:262-266 | the "No CDP neighbors" error is reported exactly when no entry names a device other than the local one |
| NetworkTopology.Dashed | src/apps/network-topology.ts:296 | the replace turns each listed character into "-" and keeps the rest and the length |
| NetworkTopology.ParseRouting | src/apps/network-topology.ts:271-345 | the loop over the lines agrees with RoutingTopology |
| NetworkTopology.IdsApart | src/apps/network-topology.ts:296-321 | network ids, next-hop ids and the local router's id never clash |
| NetworkTopology.RoutingWellFormed | src/apps/network-topology.ts:271-345 | the local router stays first, ids stay unique, every link starts at the local router and ends at a listed device, and no next hop gets two links |
| NetworkTopology.RouteStepKeeps | src/apps/network-topology.ts:290-336 | one routing line keeps the graph well formed |
| NetworkTopology.ConnectedKeeps | src/apps/network-topology.ts:291-311 | a connected route keeps the graph well formed |
| NetworkTopology.ConnectedListed | src/apps/network-topology.ts:291-311 | after a connected route every link still ends at a listed device |
| NetworkTopology.ConnectedHopsOnce | src/apps/network-topology.ts:291-311 | a connected route adds no second link to a next hop |
| NetworkTopology.ViaKeeps | src/apps/network-topology.ts:314-336 | a next-hop route keeps the graph well formed |
| NetworkTopology.SetKeepsFirst | src/apps/network-topology.ts:297 | setting an id other than the first entry's keeps the first entry |
| NetworkTopology.RouteLinksPerLine | src/apps/network-topology.ts:290-336 | each connected route counts one network, lists it and adds one link; a next hop seen for the first time adds one router and one link |
| NetworkTopology.ConnectedCounts | src/apps/network-topology.ts:291-311 | a connected route counts one network and adds one link and exactly its network device |
| NetworkTopology.ViaCounts | src/apps/network-topology.ts:314-336 | a next-hop route adds a link exactly when the hop is new and keeps every device |
| NetworkTopology.RoutingErrorIffNoConnected | src/apps/network-topology.ts:340-342 | the "No routes" error is reported exactly when no line is a connected route |
| NetworkTopology.DetectFormat | src/apps/network-topology.ts:347-352 | the topology detector answers CDP, LLDP, routing or unknown, never a configuration format; CDP needs both "Device ID:" and "Platform:" |
| NetworkTopology.ParseTopology | src/apps/network-topology.ts:354-362 | the text is read by the parser of the detected format; an unknown format gives one error and an empty graph |
| NetworkTopology.CdpBeatsLldp | src/apps/network-topology.ts:348 | a text containing "Device ID:" and "Platform:" is read as CDP even when it also says "LLDP" |
| NetworkTopology.ErrorMeansNothingFound | src/apps/network-topology.ts:141-362 | each parser reports at most one error, and the LLDP and CDP errors appear exactly when nothing beyond the local device was found |
| NetworkTopology.Connections | src/apps/network-topology.ts:784 | the panel's list is no longer than the link list |
| NetworkTopology.ConnectionsExactly | src/apps/network-topology.ts:784 | the panel lists exactly the links touching the selected device |
| NetworkTopology.ConnectionsAppend | src/apps/network-topology.ts:784 | the panel keeps the links in their order |
| NetworkTopology.DescribeOtherEnd | src/apps/network-topology.ts:788-791 | each line names the selected device's port and the device at the other end |
| NetworkTopology.DetectDeviceType | src/apps/network-topology.ts:128-139 | defines `detectDeviceType` as Classify of the lower-cased capabilities, platform and name; IgnoresCase and the Classify lemmas state its properties |
| NetworkTopology.LldpTopology | src/apps/network-topology.ts:141-204 | defines `parseLLDP` as the fold LldpRun plus the "No LLDP neighbors" error; LldpWellFormed, LldpLinkPerRow and LldpErrorIffNothingFound state its properties |
| NetworkTopology.CdpTopology | src/apps/network-topology.ts:206-269 | defines `parseCDP` as the fold CdpRun plus the "No CDP neighbors" error; CdpShape, CdpLinkPerEntry and CdpErrorIffNoNeighbour state its properties |
| NetworkTopology.RoutingTopology | src/apps/network-topology.ts:271-345 | defines `parseRouting` as the fold RouteRun plus the "No routes" error; RouteStepKeeps and RouteLinksPerLine state its properties |
| IacVisualizer.NodeTypeDefault | src/apps/iac-visualizer.ts:206-218 | a Terraform resource is compute, storage or network when its type is in the table, and "aws" exactly when it is not, whichever provider it comes from |
| IacVisualizer.K8sNodeTypeDefault | src/apps/iac-visualizer.ts:220-230 | a Kubernetes kind is never "aws", is "k8s" exactly when it is not in the table, and only a Service is a service and only an Ingress an ingress |
| IacVisualizer.PutProp | src/apps/iac-visualizer.ts:236 | assigning a property adds at most one key |
| IacVisualizer.GetPutProp | src/apps/iac-visualizer.ts:236 | after an assignment the key reads the new value and every other key is unchanged |
| IacVisualizer.GetPutAll | src/apps/iac-visualizer.ts:232-240 | the last assignment to a key wins, and keys never assigned keep their value |
| IacVisualizer.ParseProperties | src/apps/iac-visualizer.ts:232-240 | the two matching loops agree with Properties |
| IacVisualizer.ReferencesOverride | src/apps/iac-visualizer.ts:232-240 | a reference assignment overrides a quoted one for the same key; a key never assigned is absent |
| IacVisualizer.FindConnections | src/apps/iac-visualizer.ts:242-253 | the matching loop with its `includes` test agrees with Dedup |
| IacVisualizer.DedupDistinct | src/apps/iac-visualizer.ts:242-253 | the connection list holds no reference twice |
| IacVisualizer.DedupMembers | src/apps/iac-visualizer.ts:242-253 | the connection list holds exactly the matched references |
| IacVisualizer.FullRefPrefix | src/apps/iac-visualizer.ts:248-250 | a matched reference starts with its provider's prefix |
| IacVisualizer.DedupProviders | src/apps/iac-visualizer.ts:244-250 | every connection has an aws_, google_ or azurerm_ type |
| IacVisualizer.DedupFirstSeenOrder | src/apps/iac-visualizer.ts:242-253 | connections keep the order of first appearance: those of a prefix of the matches are a prefix of the list |
| IacVisualizer.TerraformNodes | src/apps/iac-visualizer.ts:261-271 | one node per resource block, in order |
| IacVisualizer.ParseTerraform | src/apps/iac-visualizer.ts:255-277 | the loop over the resource blocks agrees with TerraformParsed |
| IacVisualizer.TerraformShape | src/apps/iac-visualizer.ts:255-277 | each resource block becomes the node "type.name" of its table type, in order, and the error is reported exactly when a non-blank text has no block |
| IacVisualizer.K8sNodes | src/apps/iac-visualizer.ts:284-303 | at most one node per document, each with no connections yet |
| IacVisualizer.FindKind | src/apps/iac-visualizer.ts:308-312 | `nodes.find` returns a node of that kind, and nothing only when no node has that kind |
| IacVisualizer.Linked | src/apps/iac-visualizer.ts:306-315 | adding the implied links keeps one node per node |
| IacVisualizer.FindKindIgnoresLinks | src/apps/iac-visualizer.ts:306-315 | pushing connections changes neither whether a kind is found nor which node is found first |
| IacVisualizer.ImpliedLinksIgnoreLinks | src/apps/iac-visualizer.ts:306-315 | the implied links depend only on ids and kinds |
| IacVisualizer.AddK8sConnections | src/apps/iac-visualizer.ts:306-315 | the `forEach` pass that pushes into the nodes in place agrees with Linked |
| IacVisualizer.ParseKubernetes | src/apps/iac-visualizer.ts:279-322 | the parser agrees with K8sParsed |
| IacVisualizer.K8sNodePerDoc | src/apps/iac-visualizer.ts:284-303 | a document yields a node "Kind/name" exactly when both its kind and its name were found |
| IacVisualizer.Both | src/apps/iac-visualizer.ts:290 | only documents with both a kind and a name are kept |
| IacVisualizer.ImpliedLinksShape | src/apps/iac-visualizer.ts:306-315 | every Service links to the first Deployment and every Ingress to the first Service, when there is one; no other node gets a link |
| IacVisualizer.DetectFormat | src/apps/iac-visualizer.ts:324-332 | Terraform exactly when more Terraform patterns match than Kubernetes ones, unknown exactly on a tie |
| IacVisualizer.ParseIaC | src/apps/iac-visualizer.ts:334-339 | the text is read by the parser of the detected format; an unknown format gives no nodes and one error |
| IacVisualizer.NoPatternIsUnknown | src/apps/iac-visualizer.ts:324-332 | a text matching none of the eight patterns, such as an empty one, is not recognised |
| IacVisualizer.ManifestIsKubernetes | src/apps/iac-visualizer.ts:324-332 | a manifest with the four Kubernetes keys and no Terraform keyword is read as Kubernetes |
| IacVisualizer.GetNodeType | src/apps/iac-visualizer.ts:206-218 | defines `getNodeType`: the table's node type for a known Terraform resource type, `aws` for any other (used by TerraformParsed and its lemmas) |
| IacVisualizer.GetK8sNodeType | src/apps/iac-visualizer.ts:220-230 | defines `getK8sNodeType`: the table's node type for a known Kubernetes kind, `k8s` for any other (used by K8sParsed and its lemmas) |

## Left out

- Rendering and animation: canvas drawing, DOM and HTML text, CSS classes, particles, sounds, score pop-ups and easing. The model keeps only the state these read.
- The force-directed layout, zoom, pan and hit-testing of the network and infrastructure visualizers. These are floating-point physics. Only their parsers and the connection list of the details panel are modelled.
- The regular-expression engine. Each parser takes its input already cut into the pieces its expressions capture: LLDP lines, CDP entries, routing lines, resource blocks, manifest documents and the pattern tests of the format detectors.
- The calc command's evaluation through `Function`. Only its character and operator checks are modelled, and the reply names the expression that would be evaluated.
- Commands whose output is fixed text or a timed sequence, such as help, neofetch, traceroute, hack or matrix. Their reply is reduced to `Canned` and the state they leave is modelled. The follow-up lines of the themed terminals' `scan` and `breach` are left out too.
- The probabilities of the random choices. Every `Math.random` draw is a parameter, and the lemmas hold for every value it can take.
- Storage and timers. localStorage and sessionStorage values are parameters. Timer callbacks are methods of their own, fired by the caller in any order the source allows.
- The drop timing of both Tetris games, including the canvas game's `dropTime` formula. A gravity tick is an event.
- JavaScript objects as dictionaries. Prototype keys such as "constructor" are not looked up. `Object.keys` gives insertion order, not the integer-first order. Strings are sequences of ASCII-range characters: case mapping and `trim` follow ASCII, and UTF-16 surrogate pairs are not modelled.
- `parseInt` returning NaN, and numbers as IEEE doubles. Scores and counters are unbounded integers, and window geometry is exact `real` arithmetic.
- Window management outside the geometry: `closeWindow`, `minimizeWindow`, `restoreWindow` (the branch of `openWindow` that calls it is modelled), `applyWallpaper` and the wiring of the event listeners. The routing that those listeners do is modelled.
- The Finder's grid or list view, its selection and the rendering of the items it lists.
- In the icon scripts: PIL's decoding, the directory listing, the file reads and writes, and the printing. The decoded image and the file bytes are inputs, and the messages become a verdict per file.
- Snake.SnakeGame.SpawnFood: the draws are a finite list. When no draw is off the snake the food stays where it was. The source keeps drawing until it finds a free cell, and never stops on a full board.
- Finder.FinderApp.Navigate, Finder.FinderApp.Back, Finder.FinderApp.Forward and Finder.FinderApp.Up require the history index to point at the current path. Only these four functions change the history, and they keep that invariant from the initial state, as BackForwardKeepValid and NavigateTruncates show.

## Findings

| source | as written | input that shows it | evidently intended | confidence | as-written member | corrected member |
|---|---|---|---|---|---|---|
| src/games/game-2048.ts:227 | the merge test reads `board[next.x][next.y]` without checking that `next` is on the board | a left move on a board whose only tile is in column 0: `next.x` is -1, `board[-1]` is undefined, and the read throws a TypeError | read the neighbour only when it is within bounds, as `findFarthestPosition` does | high, not executed | Game2048.SidewaysMoveCrashes | Game2048.TraversalCompletes |
| scripts/check_transparency.py:38 | `len(pixel)` is applied to what `getpixel` returns for a palette image, which is an int | a mode "P" image with "transparency" in its info: the call raises and the file is reported as failed | test whether the palette index is fully transparent: equal to the single transparency index, or with alpha 0 in the transparency table | high, not executed | CheckTransparency.PaletteFails | CheckTransparency.FixedPaletteJudged |
| src/terminal/os93.js:517-526 | when the quote list wraps around, the handler assigns the reshuffled list to an imported binding | the command `quote` when the index is at the last quote: the index is reset to 0 and the assignment throws, so the last quote is never printed | reset the index, reshuffle the shared quote list through its setter, and print the quote | medium, not executed | Os93.QuoteThrowsAtEnd | Os93.QuoteFixedFacts |
| src/terminal/os93.js:655-735 | the `flipMap` values are the UTF-8 bytes of the turned letters read back as Windows-1252 text | the command `flip a` prints the two characters U+00C9 U+0090 instead of the one turned letter U+0250 | the turned letters themselves, as the table of `src/terminal/pietros.ts` holds them | high, not executed | Os93.FlipDiffers | PietrOS.Flip, Os93.Flip93AgreesExactly |
