/** The shared application state of the desktop (`src/state.ts`; `src/state.js`
 *  is the same code in plain JavaScript): the z-index counter, the wallpaper
 *  index, the terminal's path, history and tab-completion state, the shuffled
 *  quote list and the terminal mode record, each changed only through its
 *  setter. */
module State {
  import opened Wrappers

  datatype Wallpaper = Wallpaper(kind: string, light: string, dark: string)

  const Wallpapers: seq<Wallpaper> := [
    Wallpaper("class", "sonoma-bg", "sonoma-bg-dark"),
    Wallpaper("class", "sequoia-bg", "sequoia-bg-dark"),
    Wallpaper("class", "ventura-bg", "ventura-bg-dark")
  ]

  /** `QUOTES`, in order. */
  const Quotes: seq<string> := [Q0, Q1, Q2, Q3, Q4, Q5, Q6, Q7, Q8]
  const Q0 := "If you don't work hard on your own dreams, you'll eventually end up building someone else's."
  const Q1 := "The only way to do great work is to love what you do."
  const Q2 := "Sometimes the correct path, the bravest path is the least obvious, and also the gentlest."
  const Q3 := "If you don't like what is being said, change the conversation."
  const Q4 := "Even though success is a reality, it's effects are temporary."
  const Q5 := "You don't have to be great to start, but you have to start to be great."
  const Q6 := "In the middle of difficulty lies opportunity."
  const Q7 := "Every expert was once a beginner who refused to quit."
  const Q8 := "The only way to make sense out of change is to plunge into it, move with it, and join the dance."

  /** `TERMINAL_STATE`: which terminal personality is active and the prompt's
   *  user and host. */
  datatype TerminalState = TerminalState(mode: string, user: string, host: string)

  const InitialTerminalState: TerminalState := TerminalState("os93", "guest", "OS93")

  const InitialZIndex: int := 100
  const HomePath: string := "/home/guest"

  // ---------------------------------------------------------------------------
  // Fisher–Yates shuffle. `picks[i]` stands for the random number drawn when
  // the loop is at index i; `picks[i] % (i + 1)` is the `j` the source computes.

  function SwapAt<T>(s: seq<T>, i: nat, j: nat): (r: seq<T>)
    requires i < |s| && j < |s|
    ensures |r| == |s| && r[i] == s[j] && r[j] == s[i]
    ensures forall k :: 0 <= k < |s| && k != i && k != j ==> r[k] == s[k]
  {
    s[i := s[j]][j := s[i]]
  }

  /** The loop of `shuffleArray` run from index `i` down to 1. */
  function ShuffleFrom<T>(s: seq<T>, picks: seq<nat>, i: int): (r: seq<T>)
    requires |picks| == |s| && i < |s|
    ensures |r| == |s|
    decreases i
  {
    if i <= 0 then s
    else ShuffleFrom(SwapAt(s, i, picks[i] % (i + 1)), picks, i - 1)
  }

  /** The order `shuffleArray` leaves its argument in for the given draws. */
  function Shuffled<T>(s: seq<T>, picks: seq<nat>): (r: seq<T>)
    requires |picks| == |s|
    ensures |r| == |s|
  {
    ShuffleFrom(s, picks, |s| - 1)
  }

  lemma SwapAtPermutes<T>(s: seq<T>, i: nat, j: nat)
    requires i < |s| && j < |s|
    ensures multiset(SwapAt(s, i, j)) == multiset(s)
  {
    if i != j {
      calc {
        multiset(SwapAt(s, i, j));
        multiset(s[i := s[j]][j := s[i]]);
        multiset(s[i := s[j]]) - multiset{s[i := s[j]][j]} + multiset{s[i]};
        multiset(s) - multiset{s[i]} + multiset{s[j]} - multiset{s[j]} + multiset{s[i]};
      }
    }
  }

  lemma {:induction false} ShuffleFromPermutes<T>(s: seq<T>, picks: seq<nat>, i: int)
    requires |picks| == |s| && i < |s|
    ensures |ShuffleFrom(s, picks, i)| == |s|
    ensures multiset(ShuffleFrom(s, picks, i)) == multiset(s)
    decreases i
  {
    if i > 0 {
      SwapAtPermutes(s, i, picks[i] % (i + 1));
      ShuffleFromPermutes(SwapAt(s, i, picks[i] % (i + 1)), picks, i - 1);
    }
  }

  /** The shuffle is a permutation of its input, whatever the draws. */
  lemma ShuffledIsPermutation<T>(s: seq<T>, picks: seq<nat>)
    requires |picks| == |s|
    ensures |Shuffled(s, picks)| == |s|
    ensures multiset(Shuffled(s, picks)) == multiset(s)
  {
    ShuffleFromPermutes(s, picks, |s| - 1);
  }

  /** Empty and one-element arrays come back unchanged. */
  lemma ShuffledShort<T>(s: seq<T>, picks: seq<nat>)
    requires |picks| == |s| && |s| <= 1
    ensures Shuffled(s, picks) == s
  {
  }

  /** `shuffleArray(arr)`: swaps in place and returns the same array. */
  method ShuffleArray<T>(arr: array<T>, picks: seq<nat>) returns (r: array<T>)
    requires |picks| == arr.Length
    modifies arr
    ensures r == arr
    ensures arr[..] == Shuffled(old(arr[..]), picks)
    ensures multiset(arr[..]) == multiset(old(arr[..]))
  {
    var i := arr.Length - 1;
    while i > 0
      invariant -1 <= i < arr.Length
      invariant arr.Length == 0 ==> i == -1
      invariant ShuffleFrom(arr[..], picks, i) == Shuffled(old(arr[..]), picks)
    {
      var j := picks[i] % (i + 1);
      ghost var before := arr[..];
      arr[i], arr[j] := arr[j], arr[i];
      assert arr[..] == SwapAt(before, i, j);
      i := i - 1;
    }
    ShuffledIsPermutation(old(arr[..]), picks);
    r := arr;
  }

  /** The module-level variables of `src/state.ts`. */
  class AppState {
    var zIndexCounter: int
    var activeWallpaperIndex: int
    var monitorInterval: Option<int>
    var currentPath: string
    var terminalHistory: seq<string>
    var terminalHistoryIndex: int
    var shuffledQuotes: seq<string>
    var quoteIndex: int
    var terminal: TerminalState
    var tabCompletionIndex: int
    var lastTabInput: string

    /** Module initialisation; `picks` are the draws of the load-time shuffle. */
    constructor (picks: seq<nat>)
      requires |picks| == |Quotes|
      ensures zIndexCounter == InitialZIndex && activeWallpaperIndex == 0
      ensures monitorInterval == None && currentPath == HomePath
      ensures terminalHistory == [] && terminalHistoryIndex == -1
      ensures shuffledQuotes == Shuffled(Quotes, picks) && quoteIndex == 0
      ensures terminal == InitialTerminalState
      ensures tabCompletionIndex == 0 && lastTabInput == ""
    {
      var quotes := ShuffleQuotes(picks);
      zIndexCounter := InitialZIndex;
      activeWallpaperIndex := 0;
      monitorInterval := None;
      currentPath := HomePath;
      terminalHistory := [];
      terminalHistoryIndex := -1;
      shuffledQuotes := quotes;
      quoteIndex := 0;
      terminal := InitialTerminalState;
      tabCompletionIndex := 0;
      lastTabInput := "";
    }

    /** `incrementZIndex`: pre-increment, so each call hands out a larger value. */
    method IncrementZIndex() returns (z: int)
      modifies this`zIndexCounter
      ensures zIndexCounter == old(zIndexCounter) + 1
      ensures z == zIndexCounter && z > old(zIndexCounter)
    {
      zIndexCounter := zIndexCounter + 1;
      z := zIndexCounter;
    }

    method SetActiveWallpaperIndex(idx: int)
      modifies this`activeWallpaperIndex
      ensures activeWallpaperIndex == idx
    {
      activeWallpaperIndex := idx;
    }

    method SetMonitorInterval(interval: Option<int>)
      modifies this`monitorInterval
      ensures monitorInterval == interval
    {
      monitorInterval := interval;
    }

    method SetCurrentPath(path: string)
      modifies this`currentPath
      ensures currentPath == path
    {
      currentPath := path;
    }

    method SetTerminalHistoryIndex(idx: int)
      modifies this`terminalHistoryIndex
      ensures terminalHistoryIndex == idx
    {
      terminalHistoryIndex := idx;
    }

    /** `pushTerminalHistory`: appends exactly one entry at the end. */
    method PushTerminalHistory(cmd: string)
      modifies this`terminalHistory
      ensures terminalHistory == old(terminalHistory) + [cmd]
    {
      terminalHistory := terminalHistory + [cmd];
    }

    method SetQuoteIndex(idx: int)
      modifies this`quoteIndex
      ensures quoteIndex == idx
    {
      quoteIndex := idx;
    }

    /** `reshuffleQuotes`: a fresh permutation of the constant quote list, which
     *  itself is left as it is (the shuffle runs on a copy). */
    method ReshuffleQuotes(picks: seq<nat>)
      requires |picks| == |Quotes|
      modifies this`shuffledQuotes
      ensures shuffledQuotes == Shuffled(Quotes, picks)
      ensures multiset(shuffledQuotes) == multiset(Quotes)
    {
      shuffledQuotes := ShuffleQuotes(picks);
    }

    /** `shuffleArray([...QUOTES])`: the shuffle runs on a fresh copy. */
    static method ShuffleQuotes(picks: seq<nat>) returns (q: seq<string>)
      requires |picks| == |Quotes|
      ensures q == Shuffled(Quotes, picks)
      ensures multiset(q) == multiset(Quotes)
    {
      var copy := new string[|Quotes|](i requires 0 <= i < |Quotes| => Quotes[i]);
      assert copy[..] == Quotes;
      var shuffled := ShuffleArray(copy, picks);
      q := shuffled[..];
    }

    method SetTabCompletionIndex(idx: int)
      modifies this`tabCompletionIndex
      ensures tabCompletionIndex == idx
    {
      tabCompletionIndex := idx;
    }

    method SetLastTabInput(input: string)
      modifies this`lastTabInput
      ensures lastTabInput == input
    {
      lastTabInput := input;
    }
  }
}
