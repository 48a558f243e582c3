/** The desktop shell of `src/main.ts` outside the Finder: the wallpaper
 *  switcher, the app search of the launchpad and of Spotlight, the geometry
 *  `openWindow` gives a new window, and the menu-bar clock that rewrites
 *  only the characters that changed. The container size, the viewport
 *  width, the random offsets and the clock's text are parameters. */
module Desktop {
  import opened Wrappers
  import opened Text
  import opened State
  import opened WindowGeometry
  import WindowManager

  // ---------------------------------------------------------------------------
  // Wallpaper

  /** JavaScript's `%`: the remainder truncates toward zero. */
  function JsRem(a: int, n: int): (r: int)
    requires n > 0
    ensures a >= 0 ==> 0 <= r < n
    ensures a < 0 ==> -n < r <= 0
  {
    if a >= 0 then a % n else -((-a) % n)
  }

  /** The index `cycleWallpaper` moves to. */
  function Cycled(i: int): int
  {
    JsRem(i + 1, |Wallpapers|)
  }

  /** `cycleWallpaper` (the repaint, `applyWallpaper`, is left out). */
  method CycleWallpaper(app: AppState)
    modifies app`activeWallpaperIndex
    ensures app.activeWallpaperIndex == Cycled(old(app.activeWallpaperIndex))
  {
    app.SetActiveWallpaperIndex(JsRem(app.activeWallpaperIndex + 1, |Wallpapers|));
  }

  /** `setWallpaper(index)`: only an index of an existing wallpaper is taken. */
  method SetWallpaper(app: AppState, index: int)
    modifies app`activeWallpaperIndex
    ensures 0 <= index < |Wallpapers| ==> app.activeWallpaperIndex == index
    ensures !(0 <= index < |Wallpapers|) ==> app.activeWallpaperIndex == old(app.activeWallpaperIndex)
  {
    if index >= 0 && index < |Wallpapers| {
      app.SetActiveWallpaperIndex(index);
    }
  }

  /** `k` presses of the wallpaper button. */
  function CycledTimes(i: int, k: nat): int
  {
    if k == 0 then i else Cycled(CycledTimes(i, k - 1))
  }

  /** Cycling keeps a valid index valid and steps through the list,
   *  wrapping from the last wallpaper to the first. */
  lemma CycleStaysInRange(i: int)
    requires 0 <= i < |Wallpapers|
    ensures 0 <= Cycled(i) < |Wallpapers|
    ensures Cycled(i) == if i == |Wallpapers| - 1 then 0 else i + 1
  {
  }

  /** After `k` presses from a valid index the index is `(i + k) mod n`, so
   *  every wallpaper comes round and `n` presses lead back. */
  lemma {:induction false} CycleOrbit(i: int, k: nat)
    requires 0 <= i < |Wallpapers|
    ensures CycledTimes(i, k) == (i + k) % |Wallpapers|
  {
    if k > 0 {
      CycleOrbit(i, k - 1);
      var j := CycledTimes(i, k - 1);
      CycleStaysInRange(j);
      assert |Wallpapers| == 3;
      ModSucc(i + k - 1);
    }
  }

  /** The remainder modulo the three wallpapers steps by one and wraps. */
  lemma ModSucc(m: nat)
    ensures (m + 1) % 3 == if m % 3 == 2 then 0 else m % 3 + 1
  {
  }

  // ---------------------------------------------------------------------------
  // App search

  /** An entry of `launchpadApps` or of Spotlight's `spotlightApps`. */
  datatype App = App(id: string, title: string)

  /** The test both searches apply to an already lower-cased term: the
   *  lower-cased title or the id (as it is) contains the term. */
  predicate Matches(app: App, term: string)
  {
    Contains(Lower(app.title), term) || Contains(app.id, term)
  }

  /** `apps.filter(app => Matches(app, term))`. */
  function Filter(apps: seq<App>, term: string): (r: seq<App>)
    ensures |r| <= |apps|
  {
    if apps == [] then []
    else (if Matches(apps[0], term) then [apps[0]] else []) + Filter(apps[1..], term)
  }

  /** The grid `filterLaunchpad(query)` builds. */
  function Launchpad(apps: seq<App>, query: string): seq<App>
  {
    Filter(apps, Lower(query))
  }

  /** A vault entry as Spotlight searches it. */
  datatype VaultItem = VaultItem(title: string, desc: string)

  /** One row of Spotlight's results, apps first. */
  datatype Hit = AppHit(app: App) | VaultHit(item: VaultItem)

  /** What `handleSearch(query)` shows. */
  datatype SpotlightView = AppGrid(apps: seq<App>) | NoResults | Results(hits: seq<Hit>)

  /** The vault test of `handleSearch`: the lower-cased title or the
   *  lower-cased description contains the term. */
  predicate VaultMatches(it: VaultItem, term: string)
  {
    Contains(Lower(it.title), term) || Contains(Lower(it.desc), term)
  }

  /** The vault rows `handleSearch` pushes after the app rows. */
  function VaultHits(items: seq<VaultItem>, term: string): (r: seq<Hit>)
    ensures |r| <= |items|
    ensures forall i :: 0 <= i < |r| ==> r[i].VaultHit? && VaultMatches(r[i].item, term)
  {
    if items == [] then []
    else
      var it := items[0];
      (if VaultMatches(it, term) then [VaultHit(it)] else []) + VaultHits(items[1..], term)
  }

  function AppHits(apps: seq<App>): (r: seq<Hit>)
    ensures |r| == |apps|
    ensures forall i :: 0 <= i < |apps| ==> r[i] == AppHit(apps[i])
  {
    if apps == [] then [] else [AppHit(apps[0])] + AppHits(apps[1..])
  }

  /** `handleSearch`: the app grid for a blank term, otherwise the matching
   *  apps followed by the matching vault entries, or "No results found.". */
  function Spotlight(apps: seq<App>, vault: seq<VaultItem>, query: string): SpotlightView
  {
    var term := Trim(Lower(query));
    if term == "" then AppGrid(apps)
    else
      var hits := AppHits(Filter(apps, term)) + VaultHits(vault, term);
      if hits == [] then NoResults else Results(hits)
  }

  /** The search keeps exactly the matching apps. */
  lemma {:induction false} FilterMembers(apps: seq<App>, term: string)
    ensures forall a :: a in Filter(apps, term) <==> a in apps && Matches(a, term)
  {
    if apps != [] {
      FilterMembers(apps[1..], term);
      assert forall a :: a in apps <==> a == apps[0] || a in apps[1..];
    }
  }

  /** The search keeps the apps in their order: filtering a concatenation
   *  filters each part, so with `FilterMembers` the result is the matching
   *  apps in list order. */
  lemma {:induction false} FilterAppend(a: seq<App>, b: seq<App>, term: string)
    ensures Filter(a + b, term) == Filter(a, term) + Filter(b, term)
  {
    if a == [] {
      assert a + b == b;
    } else {
      var head := if Matches(a[0], term) then [a[0]] else [];
      assert (a + b)[0] == a[0];
      assert (a + b)[1..] == a[1..] + b;
      assert Filter(a + b, term) == head + Filter(a[1..] + b, term);
      assert Filter(a, term) == head + Filter(a[1..], term);
      FilterAppend(a[1..], b, term);
    }
  }

  /** An empty term matches every app, so the launchpad opens with all of
   *  them (`initLaunchpad` calls `filterLaunchpad("")`). */
  lemma {:induction false} EmptyQueryShowsAll(apps: seq<App>)
    ensures Launchpad(apps, "") == apps
  {
    if apps != [] {
      ContainsEmpty(apps[0].id);
      EmptyQueryShowsAll(apps[1..]);
      assert [apps[0]] + apps[1..] == apps;
    }
  }

  /** The query's case does not matter. */
  lemma QueryCaseIgnored(apps: seq<App>, query: string)
    ensures Launchpad(apps, Lower(query)) == Launchpad(apps, query)
  {
    LowerIdempotent(query);
  }

  /** A blank query shows the app grid, and a non-blank one shows the
   *  matching apps first, in order, before any vault entry. */
  lemma SpotlightAppsFirst(apps: seq<App>, vault: seq<VaultItem>, query: string)
    ensures Trim(Lower(query)) == "" ==> Spotlight(apps, vault, query) == AppGrid(apps)
    ensures var term := Trim(Lower(query)); var f := Filter(apps, term);
      Spotlight(apps, vault, query).Results? ==>
        |f| <= |Spotlight(apps, vault, query).hits|
        && forall i :: 0 <= i < |f| ==> Spotlight(apps, vault, query).hits[i] == AppHit(f[i])
  {
  }

  /** Every matching vault entry is listed, and nothing else. */
  lemma {:induction false} VaultHitsMembers(items: seq<VaultItem>, term: string)
    ensures forall it :: VaultHit(it) in VaultHits(items, term) <==> it in items && VaultMatches(it, term)
  {
    if items != [] {
      VaultHitsMembers(items[1..], term);
      assert forall it :: it in items <==> it == items[0] || it in items[1..];
    }
  }

  /** The vault rows keep the vault's order: searching a concatenation
   *  searches each part. */
  lemma {:induction false} VaultHitsAppend(a: seq<VaultItem>, b: seq<VaultItem>, term: string)
    ensures VaultHits(a + b, term) == VaultHits(a, term) + VaultHits(b, term)
  {
    if a == [] {
      assert a + b == b;
    } else {
      var head := if VaultMatches(a[0], term) then [VaultHit(a[0])] else [];
      assert (a + b)[0] == a[0];
      assert (a + b)[1..] == a[1..] + b;
      assert VaultHits(a + b, term) == head + VaultHits(a[1..] + b, term);
      assert VaultHits(a, term) == head + VaultHits(a[1..], term);
      VaultHitsAppend(a[1..], b, term);
    }
  }

  /** Behind the app rows come exactly the vault rows (their meaning stated
   *  by VaultHitsMembers and VaultHitsAppend), and "No results found." is
   *  shown exactly when no app and no vault entry matches a non-blank term. */
  lemma SpotlightVault(apps: seq<App>, vault: seq<VaultItem>, query: string)
    ensures var term := Trim(Lower(query)); var view := Spotlight(apps, vault, query);
      view.Results? ==> view.hits[|Filter(apps, term)|..] == VaultHits(vault, term)
    ensures var term := Trim(Lower(query));
      Spotlight(apps, vault, query).NoResults?
      <==> term != ""
           && (forall a :: a in apps ==> !Matches(a, term))
           && (forall it :: it in vault ==> !VaultMatches(it, term))
  {
    var term := Trim(Lower(query));
    var f := Filter(apps, term);
    FilterMembers(apps, term);
    VaultHitsMembers(vault, term);
    var hits := AppHits(f) + VaultHits(vault, term);
    assert hits[|f|..] == VaultHits(vault, term);
    if f != [] {
      assert f[0] in f;
    }
    var v := VaultHits(vault, term);
    if v != [] {
      assert v[0] == VaultHit(v[0].item);
      assert VaultHit(v[0].item) in v;
    }
  }

  // ---------------------------------------------------------------------------
  // openWindow

  /** `{ width, height }` of an entry of the `windows` configuration. */
  datatype Config = Config(width: real, height: real)

  /** The inline style `openWindow` gives a new window. */
  datatype Placement = Placement(left: real, top: real, width: real, height: Length)

  const MobileBreakpoint: real := 768.0
  const MobileHeight: string := "calc(100vh - 85px)"

  /** `window.innerWidth < 768`. */
  predicate Mobile(innerWidth: real)
  {
    innerWidth < MobileBreakpoint
  }

  /** The room above the dock. */
  function MaxAvailableHeight(containerH: real, innerWidth: real): real
  {
    containerH - (if Mobile(innerWidth) then 68.0 else 120.0)
  }

  /** The geometry of `openWindow`: full width at the top left on a phone;
   *  on a desktop the configured width, the height capped by the room above
   *  the dock, centred with the random offsets and pushed up off the dock,
   *  but never above 10px. */
  function Place(cfg: Config, containerW: real, containerH: real, innerWidth: real, randX: real, randY: real): Placement
  {
    var maxH := MaxAvailableHeight(containerH, innerWidth);
    if Mobile(innerWidth) then Placement(0.0, 0.0, containerW, Css(MobileHeight))
    else
      var h := if cfg.height > maxH then maxH else cfg.height;
      var left := Max(0.0, (containerW - cfg.width) / 2.0) + randX;
      var top := Max(10.0, (maxH - h) / 2.0) + randY;
      var top' := if top + h > maxH then Max(maxH - h, 10.0) else top;
      Placement(left, top', cfg.width, Px(h))
  }

  /** On a desktop the window is never taller than the room above the dock,
   *  never above 10px, and keeps clear of the dock whenever there is room;
   *  it starts at or right of its centred position. */
  lemma DesktopPlacement(cfg: Config, containerW: real, containerH: real, innerWidth: real, randX: real, randY: real)
    requires !Mobile(innerWidth) && 0.0 <= randX && 0.0 <= randY
    ensures var p := Place(cfg, containerW, containerH, innerWidth, randX, randY);
      var maxH := MaxAvailableHeight(containerH, innerWidth);
      p.height.Px? && p.height.v <= maxH && p.height.v <= cfg.height
      && (p.height.v == cfg.height || p.height.v == maxH)
      && p.top >= 10.0
      && (maxH - p.height.v >= 10.0 ==> p.top + p.height.v <= maxH)
      && p.left >= randX && p.width == cfg.width
  {
  }

  /** On a phone the window fills the container's width from the top left,
   *  whatever its configured size. */
  lemma MobilePlacement(cfg: Config, cfg': Config, containerW: real, containerH: real, innerWidth: real, randX: real, randY: real)
    requires Mobile(innerWidth)
    ensures Place(cfg, containerW, containerH, innerWidth, randX, randY)
         == Place(cfg', containerW, containerH, innerWidth, 0.0, 0.0)
    ensures Place(cfg, containerW, containerH, innerWidth, randX, randY)
         == Placement(0.0, 0.0, containerW, Css(MobileHeight))
  {
  }

  /** What `openWindow` did. */
  datatype Opened = Restored | Created | Threw

  /** The window record `openWindow` registers. */
  function NewWin(p: Placement, z: int): (w: Win)
    ensures WindowManager.Fresh(w) && w.active && w.zIndex == z
  {
    Win(Style(Px(p.left), Px(p.top), Px(p.width), p.height), "", z, true, false, None, false, false)
  }

  /** `openWindow(id)`: an open window is restored (by `restoreWindow`,
   *  which is not part of this model) instead of created; an id without a
   *  configuration throws on `winConfig.height` before anything changes;
   *  otherwise the new window takes the next z-index and is registered
   *  with the geometry of `Place`. */
  method OpenWindow(mgr: WindowManager.Manager, app: AppState, configs: map<string, Config>, id: string,
                    containerW: real, containerH: real, innerWidth: real, randX: real, randY: real)
    returns (outcome: Opened)
    modifies mgr`windows, app`zIndexCounter
    ensures outcome == Restored <==> id in old(mgr.windows)
    ensures outcome == Threw <==> id !in old(mgr.windows) && id !in configs
    ensures outcome != Created ==> mgr.windows == old(mgr.windows) && app.zIndexCounter == old(app.zIndexCounter)
    ensures outcome == Created ==> app.zIndexCounter == old(app.zIndexCounter) + 1
    ensures outcome == Created ==>
      mgr.windows == old(mgr.windows)[id := NewWin(Place(configs[id], containerW, containerH, innerWidth, randX, randY), app.zIndexCounter)]
    ensures WindowManager.Valid(old(mgr.Snap())) ==> WindowManager.Valid(mgr.Snap())
  {
    if id in mgr.windows {
      return Restored;
    }
    if id !in configs {
      return Threw;
    }
    var p := Place(configs[id], containerW, containerH, innerWidth, randX, randY);
    var z := app.IncrementZIndex();
    mgr.Register(id, NewWin(p, z));
    outcome := Created;
  }

  // ---------------------------------------------------------------------------
  // updateClock

  /** The characters of the clock's spans after the diffing pass: a span
   *  whose character changed takes the new one, the others stay. */
  function Retyped(spans: string, prev: string, text: string): (r: string)
    requires |prev| == |text|
    ensures |r| == |spans|
  {
    seq(|spans|, j requires 0 <= j < |spans| =>
      if j < |text| && prev[j] != text[j] then text[j] else spans[j])
  }

  /** The indices below `k` of the spans the pass animates, in order. */
  function Flips(spans: string, prev: string, text: string, k: nat): seq<nat>
    requires |prev| == |text| && k <= |text|
  {
    if k == 0 then []
    else
      Flips(spans, prev, text, k - 1)
      + (if k - 1 < |spans| && prev[k - 1] != text[k - 1] then [k - 1] else [])
  }

  /** The animated indices are exactly the changed positions that have a
   *  span, each once and in increasing order. */
  lemma {:induction false} FlipsExactly(spans: string, prev: string, text: string, k: nat)
    requires |prev| == |text| && k <= |text|
    ensures var r := Flips(spans, prev, text, k);
      (forall i :: i in r <==> 0 <= i < k && i < |spans| && prev[i] != text[i])
      && (forall a, b :: 0 <= a < b < |r| ==> r[a] < r[b])
      && (forall a :: 0 <= a < |r| ==> r[a] < k)
  {
    if k > 0 {
      FlipsExactly(spans, prev, text, k - 1);
    }
  }

  /** The clock's `prevClockText` and the characters of its spans. */
  class Clock {
    var prev: string
    var spans: string

    constructor ()
      ensures prev == "" && spans == ""
    {
      prev := "";
      spans := "";
    }

    /** `updateClock` with the formatted `text`: a first render or a change
     *  of length rebuilds every span; otherwise only the spans whose
     *  character differs from the previous text are rewritten (and returned
     *  in `flipped`, the spans that get the flip animation). */
    method Update(text: string) returns (rebuilt: bool, flipped: seq<nat>)
      modifies this
      ensures prev == text
      ensures rebuilt <==> old(prev) == "" || |old(prev)| != |text|
      ensures rebuilt ==> spans == text && flipped == []
      ensures !rebuilt ==> spans == Retyped(old(spans), old(prev), text)
      ensures !rebuilt ==> flipped == Flips(old(spans), old(prev), text, |text|)
    {
      rebuilt := prev == "" || |prev| != |text|;
      if rebuilt {
        spans, flipped := text, [];
      } else {
        spans, flipped := Diff(spans, prev, text);
      }
      prev := text;
    }
  }

  /** The loop over the characters of the new text: a span is rewritten
   *  when its character differs from the previous text and the span
   *  exists. */
  method Diff(spans: string, prev: string, text: string) returns (cur: string, flipped: seq<nat>)
    requires |prev| == |text|
    ensures cur == Retyped(spans, prev, text)
    ensures flipped == Flips(spans, prev, text, |text|)
  {
    cur, flipped := spans, [];
    var i := 0;
    while i < |text|
      invariant 0 <= i <= |text| && |cur| == |spans|
      invariant forall j :: 0 <= j < |cur| ==>
        cur[j] == if j < i && prev[j] != text[j] then text[j] else spans[j]
      invariant flipped == Flips(spans, prev, text, i)
    {
      if prev[i] != text[i] && i < |cur| {
        cur := cur[i := text[i]];
        flipped := flipped + [i];
      }
      i := i + 1;
    }
  }

  /** While the spans show the previous text, a pass leaves them showing
   *  the new one, and it animates exactly the positions whose character
   *  changed, each once, left to right. */
  lemma RetypedShowsText(spans: string, prev: string, text: string)
    requires spans == prev && |prev| == |text|
    ensures Retyped(spans, prev, text) == text
    ensures forall i :: i in Flips(spans, prev, text, |text|) <==> 0 <= i < |text| && prev[i] != text[i]
  {
    FlipsExactly(spans, prev, text, |text|);
  }

  /** A span whose character did not change is left alone. */
  lemma RetypedKeepsSame(spans: string, prev: string, text: string, j: int)
    requires |prev| == |text| && 0 <= j < |spans|
    requires j >= |text| || prev[j] == text[j]
    ensures Retyped(spans, prev, text)[j] == spans[j]
    ensures j !in Flips(spans, prev, text, |text|)
  {
    FlipsExactly(spans, prev, text, |text|);
  }
}
