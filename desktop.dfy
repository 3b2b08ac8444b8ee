// The desktop shell: which windows are open, the breadcrumb path shown for
// them, and the scene toggle.
module Desktop {
  import opened Wrappers
  import Background

  /** The windows the desktop can open; `Home` stands for going back to the bare desktop. */
  datatype WinKey = Home | About | Projects | Contact | Timeline | File | Play

  /** The breadcrumb path for each window. */
  function PathOf(k: WinKey): (p: string)
    ensures k != Home <==> "~/home/rahulseervi/" <= p
  {
    match k
    case Home =>
      var p := "~/home/rahulseervi \U{1F3E0}";
      assert p[18] == ' ';
      p
    case About => "~/home/rahulseervi/about"
    case Projects => "~/home/rahulseervi/projects"
    case Contact => "~/home/rahulseervi/contact"
    case Timeline => "~/home/rahulseervi/timeline"
    case File => "~/home/rahulseervi/files"
    case Play => "~/home/rahulseervi/play"
  }

  /** Distinct windows have distinct paths. */
  lemma PathOfInjective(a: WinKey, b: WinKey)
    requires PathOf(a) == PathOf(b)
    ensures a == b
  {
    assert PathOf(a)[|"~/home/rahulseervi"|..] == PathOf(b)[|"~/home/rahulseervi"|..];
  }

  /** The order in which the breadcrumb falls back to a still-open window. */
  const ORDER: seq<WinKey> := [About, Projects, Contact, Timeline, File, Play]

  /** `Array.find` over `order`: the first key whose window is open. */
  function FirstOpen(order: seq<WinKey>, open: set<WinKey>): (r: Option<WinKey>)
    ensures r.Some? ==> r.value in open && r.value in order
    ensures r.Some? ==> exists i :: 0 <= i < |order| && order[i] == r.value && forall j :: 0 <= j < i ==> order[j] !in open
    ensures r.None? ==> forall j :: 0 <= j < |order| ==> order[j] !in open
  {
    if order == [] then None
    else if order[0] in open then Some(order[0])
    else
      var r := FirstOpen(order[1..], open);
      assert r.Some? ==> exists i :: 0 <= i < |order| && order[i] == r.value && forall j :: 0 <= j < i ==> order[j] !in open by {
        if r.Some? {
          var i :| 0 <= i < |order[1..]| && order[1..][i] == r.value && forall j :: 0 <= j < i ==> order[1..][j] !in open;
          assert order[i + 1] == r.value;
          forall j | 0 <= j < i + 1 ensures order[j] !in open {
            if j > 0 {
              assert order[j] == order[1..][j - 1];
            }
          }
        }
      }
      r
  }

  function FirstOpenKey(open: set<WinKey>): (r: Option<WinKey>)
    ensures r.Some? ==> r.value in open && r.value != Home
  {
    FirstOpen(ORDER, open)
  }

  /** The first open key never is `Home`, and none is found exactly when no ordered window is open. */
  lemma FirstOpenKeyFacts(open: set<WinKey>)
    ensures FirstOpenKey(open) != Some(Home)
    ensures FirstOpenKey(open).None? <==> open <= {Home}
  {
    var r := FirstOpenKey(open);
    if r.None? {
      forall k | k in open ensures k == Home {
        assert k == Home || k in ORDER;
      }
    }
  }

  /** The desktop's state: the scene, the set of open windows and the breadcrumb path. */
  datatype DesktopState = DesktopState(theme: Background.Theme, open: set<WinKey>, currentPath: string)

  /** The scene the desktop starts with. */
  const THEME_DEFAULT: Background.Theme := Background.Theme("/assets/mountains/alt-scene",
    Background.Files("1.png", "2.png", "", "3.png", "5.png", "4.png"))

  /** The other scene. */
  const THEME_ALT: Background.Theme := Background.Theme("/assets/mountains",
    Background.Files("sky.png", "far-mountains.png", "far-trees.png", "middle-mountains.png", "myst.png", "near-trees.png"))

  const INITIAL: DesktopState := DesktopState(THEME_DEFAULT, {}, PathOf(Home))

  /** Opening a window: `Home` closes everything and goes home; any other key opens just that window. */
  function OpenWin(s: DesktopState, k: WinKey): (r: DesktopState)
    ensures r.theme == s.theme && r.currentPath == PathOf(k)
    ensures k == Home ==> r.open == {}
    ensures k != Home ==> r.open == s.open + {k}
  {
    if k == Home then s.(open := {}, currentPath := PathOf(Home))
    else s.(open := s.open + {k}, currentPath := PathOf(k))
  }

  /** Closing a window: the breadcrumb moves to the first window still open, or home. */
  function CloseWin(s: DesktopState, k: WinKey): (r: DesktopState)
    ensures r.theme == s.theme && r.open == s.open - {k}
    ensures k !in r.open
    ensures r.currentPath == match FirstOpenKey(r.open) case Some(f) => PathOf(f) case None => PathOf(Home)
  {
    var next := s.open - {k};
    var first := FirstOpenKey(next);
    s.(open := next, currentPath := if first.Some? then PathOf(first.value) else PathOf(Home))
  }

  /** The breadcrumb's home link. */
  function ResetToHome(s: DesktopState): (r: DesktopState)
    ensures r == OpenWin(s, Home)
  {
    s.(open := {}, currentPath := PathOf(Home))
  }

  /** Switches to the other scene, recognising the default one by its folder. */
  function ToggleTheme(t: Background.Theme): (r: Background.Theme)
    ensures t.path == THEME_DEFAULT.path ==> r == THEME_ALT
    ensures t.path != THEME_DEFAULT.path ==> r == THEME_DEFAULT
  {
    if t.path == THEME_DEFAULT.path then THEME_ALT else THEME_DEFAULT
  }

  // ---------------------------------------------------------------------------
  // Properties

  /** Opening the same window twice is opening it once. */
  lemma OpenIdempotent(s: DesktopState, k: WinKey)
    ensures OpenWin(OpenWin(s, k), k) == OpenWin(s, k)
  {
  }

  /** Opening a window changes no other window's flag. */
  lemma OpenTouchesOnlyK(s: DesktopState, k: WinKey, other: WinKey)
    requires k != Home && other != k
    ensures other in OpenWin(s, k).open <==> other in s.open
  {
  }

  /** Closing a window changes no other window's flag. */
  lemma CloseTouchesOnlyK(s: DesktopState, k: WinKey, other: WinKey)
    requires other != k
    ensures other in CloseWin(s, k).open <==> other in s.open
  {
  }

  /** Once every window is closed again the breadcrumb is back home. */
  lemma CloseLastGoesHome(s: DesktopState, k: WinKey)
    requires s.open <= {k}
    ensures CloseWin(s, k).currentPath == PathOf(Home)
  {
    FirstOpenKeyFacts(s.open - {k});
  }

  /** After closing, the breadcrumb names a window that is still open, or home when none is. */
  lemma CloseShowsOpenWindow(s: DesktopState, k: WinKey)
    ensures var r := CloseWin(s, k);
      (exists f :: f in r.open && f != Home && r.currentPath == PathOf(f)) || (r.open <= {Home} && r.currentPath == PathOf(Home))
  {
    FirstOpenKeyFacts(s.open - {k});
  }

  /** The home flag is never set: it is not set initially, and no operation sets it. */
  predicate HomeClosed(s: DesktopState) {
    Home !in s.open
  }

  lemma HomeNeverOpen(s: DesktopState, k: WinKey)
    requires HomeClosed(s)
    ensures HomeClosed(OpenWin(s, k)) && HomeClosed(CloseWin(s, k)) && HomeClosed(ResetToHome(s))
    ensures HomeClosed(s.(theme := ToggleTheme(s.theme)))
  {
  }

  /** Toggling twice from either scene gives the scene back. */
  lemma ToggleTwice(t: Background.Theme)
    requires t == THEME_DEFAULT || t == THEME_ALT
    ensures ToggleTheme(ToggleTheme(t)) == t
  {
  }

  /** A state every operation sequence starting from `INITIAL` keeps: no home flag, and the path is home or names an open window. */
  predicate Coherent(s: DesktopState) {
    && HomeClosed(s)
    && (s.currentPath == PathOf(Home) || exists f :: f in s.open && s.currentPath == PathOf(f))
  }

  lemma CoherentPreserved(s: DesktopState, k: WinKey)
    requires Coherent(s)
    ensures Coherent(OpenWin(s, k)) && Coherent(CloseWin(s, k)) && Coherent(ResetToHome(s))
    ensures Coherent(s.(theme := ToggleTheme(s.theme)))
  {
    if k != Home {
      assert k in OpenWin(s, k).open;
    }
    CloseShowsOpenWindow(s, k);
  }

  lemma InitialCoherent()
    ensures Coherent(INITIAL)
  {
  }
}
