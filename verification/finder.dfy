/** The Finder window of `src/main.ts`: a current path with a browser-like
 *  back/forward history (`finderNavigate`, `finderBack`, `finderForward`,
 *  `finderUp`) and the directory listing `finderRender` shows for the
 *  current path. The history variables are private to the page script and
 *  only these functions change them, so the model keeps their invariant
 *  as a precondition of each step. */
module Finder {
  import opened Wrappers
  import opened Text
  import opened FsTree
  import TerminalCore

  const Home: string := "/home/guest"

  /** `finderCurrentPath`, `finderHistory`, `finderHistoryIndex` and
   *  `finderSelectedFile`. */
  datatype Nav = Nav(path: string, history: seq<string>, index: int, selected: Option<string>)

  /** The index points into the history, at the current path. */
  predicate Valid(n: Nav)
  {
    0 <= n.index < |n.history| && n.history[n.index] == n.path
  }

  /** `finderNavigate(path)`: the entries after the current one are dropped,
   *  then `path` is appended unless it is already the last entry. */
  function Navigated(n: Nav, path: string): (r: Nav)
    requires Valid(n)
  {
    var h := if n.index < |n.history| - 1 then n.history[..n.index + 1] else n.history;
    if h[|h| - 1] != path then Nav(path, h + [path], |h|, None)
    else Nav(path, h, n.index, None)
  }

  /** `finderBack`: one entry back, if there is one. */
  function Backed(n: Nav): Nav
    requires Valid(n)
  {
    if n.index > 0 then n.(index := n.index - 1, path := n.history[n.index - 1]) else n
  }

  /** `finderForward`: one entry forward, if there is one. */
  function Forwarded(n: Nav): Nav
    requires Valid(n)
  {
    if n.index < |n.history| - 1 then n.(index := n.index + 1, path := n.history[n.index + 1]) else n
  }

  /** The target of `finderUp`: "/" followed by all components but the
   *  last, or nothing when the path has no components. (`parentPath || "/"`
   *  never falls back: the joined path always starts with "/".) */
  function Parent(path: string): Option<string>
  {
    var parts := TerminalCore.Parts(path);
    if |parts| == 0 then None
    else Some("/" + Join(parts[..|parts| - 1], "/"))
  }

  /** `finderUp`. */
  function Upped(n: Nav): Nav
    requires Valid(n)
  {
    match Parent(n.path)
    case None => n
    case Some(p) => Navigated(n, p)
  }

  /** The Finder's module-level variables. */
  class FinderApp {
    var path: string
    var history: seq<string>
    var index: int
    var selected: Option<string>

    function Snap(): Nav
      reads this
    {
      Nav(path, history, index, selected)
    }

    constructor ()
      ensures Snap() == Nav(Home, [Home], 0, None) && Valid(Snap())
    {
      path := Home;
      history := [Home];
      index := 0;
      selected := None;
    }

    method Navigate(p: string)
      requires Valid(Snap())
      modifies this
      ensures Snap() == Navigated(old(Snap()), p)
    {
      path := p;
      selected := None;
      if index < |history| - 1 {
        history := history[..index + 1];
      }
      if history[|history| - 1] != p {
        history := history + [p];
        index := |history| - 1;
      }
    }

    method Back()
      requires Valid(Snap())
      modifies this`index, this`path
      ensures Snap() == Backed(old(Snap()))
    {
      if index > 0 {
        index := index - 1;
        path := history[index];
      }
    }

    method Forward()
      requires Valid(Snap())
      modifies this`index, this`path
      ensures Snap() == Forwarded(old(Snap()))
    {
      if index < |history| - 1 {
        index := index + 1;
        path := history[index];
      }
    }

    method Up()
      requires Valid(Snap())
      modifies this
      ensures Snap() == Upped(old(Snap()))
    {
      var parts := TerminalCore.Parts(path);
      if |parts| > 0 {
        parts := parts[..|parts| - 1];
        var parentPath := "/" + Join(parts, "/");
        Navigate(parentPath);
      }
    }
  }

  // ---------------------------------------------------------------------------
  // History properties

  /** Navigating drops the forward entries, keeps everything up to the
   *  current entry and adds `path` exactly when it differs from the current
   *  path; the new index is the last entry and points at `path`. */
  lemma NavigateTruncates(n: Nav, path: string)
    requires Valid(n)
    ensures var r := Navigated(n, path);
      Valid(r) && r.path == path && r.index == |r.history| - 1
      && r.history == n.history[..n.index + 1] + (if path == n.path then [] else [path])
      && r.selected.None?
  {
    assert n.history[..n.index + 1][n.index] == n.path;
    if n.index == |n.history| - 1 {
      assert n.history[..n.index + 1] == n.history;
    }
  }

  /** Going back and forward keep the history and the invariant. */
  lemma BackForwardKeepValid(n: Nav)
    requires Valid(n)
    ensures Valid(Backed(n)) && Backed(n).history == n.history
    ensures Valid(Forwarded(n)) && Forwarded(n).history == n.history
    ensures Backed(n).index == if n.index > 0 then n.index - 1 else n.index
    ensures Forwarded(n).index == if n.index < |n.history| - 1 then n.index + 1 else n.index
  {
  }

  /** Back then forward, and forward then back, return to the same state
   *  when the first step moved. */
  lemma BackForwardRoundTrip(n: Nav)
    requires Valid(n)
    ensures n.index > 0 ==> Forwarded(Backed(n)) == n
    ensures n.index < |n.history| - 1 ==> Backed(Forwarded(n)) == n
  {
  }

  /** After navigating somewhere new, back returns to where we were. */
  lemma BackAfterNavigate(n: Nav, path: string)
    requires Valid(n) && path != n.path
    ensures Backed(Navigated(n, path)).path == n.path
  {
    NavigateTruncates(n, path);
    var r := Navigated(n, path);
    assert r.history[r.index - 1] == n.history[..n.index + 1][n.index];
  }

  /** The components of a path built by joining slash-free, non-empty
   *  components behind a "/" are those components. */
  lemma PartsOfJoined(q: seq<string>)
    requires forall i :: 0 <= i < |q| ==> q[i] != "" && '/' !in q[i]
    ensures TerminalCore.Parts("/" + Join(q, "/")) == q
  {
    TerminalCore.LeadingSlashIgnored(Join(q, "/"));
    if q == [] {
      assert Split("", '/') == [""];
    } else {
      SplitJoin(q, '/');
      NonEmptyKeeps(q);
    }
  }

  /** Dropping the empty strings from a sequence without any is no change. */
  lemma {:induction false} NonEmptyKeeps(q: seq<string>)
    requires forall i :: 0 <= i < |q| ==> q[i] != ""
    ensures NonEmpty(q) == q
  {
    if q != [] {
      NonEmptyKeeps(q[1..]);
      assert [q[0]] + q[1..] == q;
    }
  }

  /** `finderUp` goes to the path with the last component removed, and it
   *  moves exactly when the path has a component to remove. */
  lemma UpDropsLastComponent(n: Nav)
    requires Valid(n)
    ensures var parts := TerminalCore.Parts(n.path);
      if parts == [] then Upped(n) == n
      else TerminalCore.Parts(Upped(n).path) == parts[..|parts| - 1] && Upped(n).path != n.path
  {
    var parts := TerminalCore.Parts(n.path);
    if parts != [] {
      var q := parts[..|parts| - 1];
      assert forall i :: 0 <= i < |q| ==> q[i] == parts[i];
      PartsOfJoined(q);
    }
  }

  /** "/" has no parent, and the parent of a one-component path is "/". */
  lemma UpFromTop(c: string)
    requires c != "" && '/' !in c
    ensures Parent("/") == None
    ensures Parent("/" + c) == Some("/")
  {
    TerminalCore.SlashIsRoot(Dir([]));
    PartsOfJoined([c]);
    assert Join([c], "/") == c;
    var parts := TerminalCore.Parts("/" + c);
    assert parts[..|parts| - 1] == [];
    assert "/" + Join([], "/") == "/";
  }

  // ---------------------------------------------------------------------------
  // finderRender

  /** The walk of `finderRender` from `fileSystem.root`: every component,
   *  "root" included, must name an entry of the directory reached so far;
   *  a missing name or a file in the middle ends the walk. */
  function Walk(n: Node, parts: seq<string>): (r: Option<Node>)
    decreases |parts|
  {
    if parts == [] then Some(n)
    else
      match n
      case File => None
      case Dir(es) =>
        match Get(es, parts[0])
        case None => None
        case Some(child) => Walk(child, parts[1..])
  }

  /** What the file pane shows. */
  datatype Listing = NoItems | Items(entries: Entries)

  /** The listing for a walk's outcome: the entries of a directory, and
   *  "No items" for a missing path or a file. */
  function ListingOf(r: Option<Node>): Listing
  {
    if r.Some? && r.value.Dir? then Items(r.value.entries) else NoItems
  }

  function Shown(root: Node, path: string): Listing
  {
    ListingOf(Walk(root, TerminalCore.Parts(path)))
  }

  /** The lookup loop of `finderRender`, with its `break`. */
  method FinderRender(root: Node, path: string) returns (l: Listing)
    ensures l == Shown(root, path)
  {
    var parts := TerminalCore.Parts(path);
    var current: Option<Node> := Some(root);
    var i := 0;
    while i < |parts|
      invariant 0 <= i <= |parts|
      invariant current.Some?
      invariant Walk(root, parts) == Walk(current.value, parts[i..])
    {
      assert parts[i..][1..] == parts[i + 1..];
      var next := if current.value.Dir? then Get(current.value.entries, parts[i]) else None;
      if next.None? {
        current := None;
        break;
      }
      current := next;
      i := i + 1;
    }
    l := if current.Some? && current.value.Dir? then Items(current.value.entries) else NoItems;
  }

  /** Walking `a + b` is walking `a`, then `b` from where `a` led. */
  lemma {:induction false} WalkAppend(n: Node, a: seq<string>, b: seq<string>)
    ensures Walk(n, a + b) == match Walk(n, a) case None => None case Some(m) => Walk(m, b)
    decreases |a|
  {
    if a == [] {
      assert a + b == b;
    } else {
      assert (a + b)[0] == a[0];
      assert (a + b)[1..] == a[1..] + b;
      if n.Dir? && Get(n.entries, a[0]).Some? {
        WalkAppend(Get(n.entries, a[0]).value, a[1..], b);
      }
    }
  }

  /** Without a "root" component the pane lists exactly the directory the
   *  terminal's `resolvePath` finds. */
  lemma {:induction false} WalkAgreesWithResolve(n: Node, parts: seq<string>)
    requires forall i :: 0 <= i < |parts| ==> parts[i] != "root"
    ensures ListingOf(Walk(n, parts)) == ListingOf(TerminalCore.Resolve(n, parts))
    decreases |parts|
  {
    if parts != [] && n.Dir? {
      var c := Get(n.entries, parts[0]);
      if c.Some? {
        WalkAgreesWithResolve(c.value, parts[1..]);
        if c.value.File? {
          assert parts[1..] == [] || Walk(c.value, parts[1..]) == None;
        }
      }
    }
  }

  /** Unlike `resolvePath`, the walk does not skip "root": in a directory
   *  without a "root" entry, "root/…" shows no items, while the terminal
   *  resolves it as if the component were not there. */
  lemma RootIsNotSkipped(n: Node, b: seq<string>)
    requires n.Dir? && Get(n.entries, "root").None?
    ensures Walk(n, ["root"] + b) == None
    ensures TerminalCore.Resolve(n, ["root"] + b) == TerminalCore.Resolve(n, b)
  {
    assert (["root"] + b)[1..] == b;
  }

  /** A path through a file shows no items, whatever follows it. */
  lemma FileShowsNothing(n: Node, a: seq<string>, b: seq<string>)
    requires Walk(n, a) == Some(File)
    ensures ListingOf(Walk(n, a + b)) == NoItems
  {
    WalkAppend(n, a, b);
  }
}
