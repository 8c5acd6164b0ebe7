/** The page's light/dark theme: the `data-theme` attribute on the document
    root, the `theme` key in local storage, the toggle icon's `src`, the two
    event listeners (system colour-scheme change, toggle click) and the
    chart-retheme hook. */
module ThemeToggle {
  import opened Wrappers

  const Dark: string := "dark"
  const Light: string := "light"
  const BrightnessIcon: string := "src/assets/icons/brightness.svg"
  const MoonIcon: string := "src/assets/icons/moon.svg"

  // ---------------------------------------------------------------------------
  // Pure choices

  /** JavaScript truthiness of a value read from local storage: present and
      not the empty string. */
  predicate Truthy(stored: Option<string>)
  {
    stored.Some? && stored.value != ""
  }

  /** The theme at start-up: the stored preference when it is truthy (any
      string, not only a theme name), else dark or light from the system
      colour-scheme signal. */
  function InitialTheme(stored: Option<string>, systemPrefersDark: bool): (t: string)
    ensures Truthy(stored) ==> t == stored.value
    ensures !Truthy(stored) ==> (t == Dark || t == Light) && (t == Dark <==> systemPrefersDark)
  {
    if Truthy(stored) then stored.value
    else if systemPrefersDark then Dark else Light
  }

  /** The theme the system listener applies for a colour-scheme change. */
  function SystemTheme(matches: bool): (t: string)
    ensures t == Dark || t == Light
    ensures t == Dark <==> matches
  {
    if matches then Dark else Light
  }

  /** How the click handler reads the current theme from the root attribute:
      dark only when it is exactly `"dark"`; anything else, or no attribute,
      is light. */
  function CurrentTheme(root: Option<string>): (t: string)
    ensures t == Dark || t == Light
    ensures t == Dark <==> root == Some(Dark)
  {
    if root == Some(Dark) then Dark else Light
  }

  /** The theme a click switches to. */
  function Opposite(t: string): (o: string)
    ensures o == Dark || o == Light
    ensures o != t
    ensures o == Dark <==> t != Dark
  {
    if t == Dark then Light else Dark
  }

  /** The toggle icon's `src` for a theme: the brightness icon for dark,
      the moon icon for anything else. */
  function IconFor(theme: string): (icon: string)
    ensures icon == BrightnessIcon <==> theme == Dark
    ensures icon == MoonIcon <==> theme != Dark
  {
    if theme == Dark then BrightnessIcon else MoonIcon
  }

  /** For the two theme names, the opposite of the opposite is the theme
      itself. */
  lemma OppositeInvolution(t: string)
    requires t == Dark || t == Light
    ensures Opposite(Opposite(t)) == t
  {
  }

  /** Examples of theme resolution: nothing stored and a dark system gives
      dark; a stored `"light"` wins over a dark system; an empty stored
      string counts as nothing stored. */
  lemma InitialThemeExamples()
    ensures InitialTheme(None, true) == Dark
    ensures InitialTheme(Some(Light), true) == Light
    ensures InitialTheme(Some(""), false) == Light
  {
  }

  // ---------------------------------------------------------------------------
  // Page state and its transitions

  /** What the page offers the theme code, taken as fixed for a page's
      lifetime: whether the toggle button and the icon element exist, and
      whether a chart-retheme hook is registered. */
  datatype Env = Env(hasButton: bool, hasIcon: bool, hasHook: bool)

  /** The observable theme state: the root attribute, the stored preference,
      the icon's `src`, which listeners are registered, and how many times
      the chart-retheme hook has run. */
  datatype View = View(root: Option<string>, stored: Option<string>, icon: string,
                       systemListener: bool, clickListener: bool, rethemeCalls: nat)

  /** Number of hook calls one apply makes. */
  function HookCalls(env: Env): (n: nat)
    ensures n == 1 <==> env.hasHook
    ensures n == 0 <==> !env.hasHook
  {
    if env.hasHook then 1 else 0
  }

  /** `applyTheme`: the root attribute becomes `theme`; the hook runs once
      if there is one. */
  function Applied(v: View, env: Env, theme: string): (r: View)
    ensures r.root == Some(theme)
    ensures r.rethemeCalls == v.rethemeCalls + HookCalls(env)
    ensures r.stored == v.stored && r.icon == v.icon
    ensures r.systemListener == v.systemListener && r.clickListener == v.clickListener
  {
    v.(root := Some(theme), rethemeCalls := v.rethemeCalls + HookCalls(env))
  }

  /** `updateThemeIcon` on the page's icon element. */
  function WithIcon(v: View, theme: string): (r: View)
    ensures v.root == Some(theme) ==> IconInSync(r)
    ensures r.root == v.root && r.stored == v.stored && r.rethemeCalls == v.rethemeCalls
    ensures r.systemListener == v.systemListener && r.clickListener == v.clickListener
  {
    v.(icon := IconFor(theme))
  }

  /** `initThemeToggle`: with both elements present, applies the initial
      theme, sets the icon, registers the system listener when no truthy
      preference is stored, and registers the click listener; with either
      element missing, nothing happens. */
  function AfterInit(v: View, env: Env, systemPrefersDark: bool): (r: View)
    ensures r.stored == v.stored
    ensures !env.hasButton || !env.hasIcon ==> r == v
    ensures env.hasButton && env.hasIcon ==>
      && r.root == Some(InitialTheme(v.stored, systemPrefersDark))
      && IconInSync(r) && r.clickListener
      && (r.systemListener <==> v.systemListener || !Truthy(v.stored))
  {
    if !env.hasButton || !env.hasIcon then v
    else
      var t := InitialTheme(v.stored, systemPrefersDark);
      var w := WithIcon(Applied(v, env, t), t);
      w.(systemListener := w.systemListener || !Truthy(v.stored), clickListener := true)
  }

  /** A click on the toggle button: if the click listener is registered,
      stores the opposite of the current theme, applies it and sets the icon. */
  function AfterToggle(v: View, env: Env): (r: View)
    ensures !v.clickListener ==> r == v
    ensures v.clickListener ==>
      && r.root == Some(Opposite(CurrentTheme(v.root)))
      && CurrentTheme(r.root) != CurrentTheme(v.root)
      && r.stored == r.root && IconInSync(r)
    ensures r.systemListener == v.systemListener && r.clickListener == v.clickListener
  {
    if !v.clickListener then v
    else
      var next := Opposite(CurrentTheme(v.root));
      WithIcon(Applied(v.(stored := Some(next)), env, next), next)
  }

  /** A system colour-scheme change: if the system listener is registered,
      applies dark or light from `matches` and sets the icon. */
  function AfterSystemChange(v: View, env: Env, matches: bool): (r: View)
    ensures r.stored == v.stored
    ensures !v.systemListener ==> r == v
    ensures v.systemListener ==> r.root == Some(SystemTheme(matches)) && IconInSync(r)
    ensures r.systemListener == v.systemListener && r.clickListener == v.clickListener
  {
    if !v.systemListener then v
    else
      var t := SystemTheme(matches);
      WithIcon(Applied(v, env, t), t)
  }

  /** Events arriving after init. */
  datatype Event = Toggle | SystemChange(matches: bool)

  /** Dispatch of one event to the listener registered for it. */
  function Step(v: View, env: Env, e: Event): (r: View)
    ensures r.stored == v.stored || e.Toggle?
    ensures r.systemListener == v.systemListener && r.clickListener == v.clickListener
    ensures IconInSync(v) ==> IconInSync(r)
  {
    match e
    case Toggle => AfterToggle(v, env)
    case SystemChange(m) => AfterSystemChange(v, env, m)
  }

  /** The state after a sequence of events, in order. */
  function Run(v: View, env: Env, events: seq<Event>): View
    decreases |events|
  {
    if events == [] then v
    else Run(Step(v, env, events[0]), env, events[1..])
  }

  /** How many of `events` reach a registered listener, and so apply a
      theme, when the registered listeners are the click listener if
      `click` and the system listener if `system`. */
  function Handled(click: bool, system: bool, events: seq<Event>): (n: nat)
    ensures n <= |events|
  {
    if events == [] then 0
    else
      var e := events[0];
      (if (e.Toggle? && click) || (e.SystemChange? && system) then 1 else 0)
        + Handled(click, system, events[1..])
  }

  /** The icon agrees with the theme on the root attribute. */
  predicate IconInSync(v: View)
  {
    v.root.Some? && v.icon == IconFor(v.root.value)
  }

  // ---------------------------------------------------------------------------
  // Properties

  /** Init with the button or the icon missing applies no theme, sets no
      icon and registers no listener. */
  lemma InitInertWithoutElements(v: View, env: Env, systemPrefersDark: bool)
    requires !env.hasButton || !env.hasIcon
    ensures AfterInit(v, env, systemPrefersDark) == v
  {
  }

  /** Init with both elements present applies the initial theme, calls the
      hook once per apply, puts the icon in step with the theme, leaves the
      storage alone, and registers the system listener exactly when no
      truthy preference was stored. A stored preference wins whatever the
      system prefers. */
  lemma InitApplies(v: View, env: Env, systemPrefersDark: bool)
    requires env.hasButton && env.hasIcon
    ensures var w := AfterInit(v, env, systemPrefersDark);
      && w.root == Some(InitialTheme(v.stored, systemPrefersDark))
      && (Truthy(v.stored) ==> w.root == v.stored)
      && w.rethemeCalls == v.rethemeCalls + HookCalls(env)
      && IconInSync(w)
      && w.stored == v.stored
      && w.clickListener
      && w.systemListener == (v.systemListener || !Truthy(v.stored))
  {
  }

  /** A fresh page with a truthy stored preference never registers the
      system listener, so no later colour-scheme change can move its theme. */
  lemma PreferenceIgnoresSystem(v: View, env: Env, systemPrefersDark: bool)
    requires !v.systemListener && Truthy(v.stored)
    ensures var w := AfterInit(v, env, systemPrefersDark);
      forall m: bool :: AfterSystemChange(w, env, m) == w
  {
  }

  /** A handled click flips the theme read from the root attribute, writes
      the new theme to storage so that storage and attribute agree, calls
      the hook once and puts the icon in step. */
  lemma ToggleFlips(v: View, env: Env)
    requires v.clickListener
    ensures var w := AfterToggle(v, env);
      && w.root == Some(Opposite(CurrentTheme(v.root)))
      && CurrentTheme(w.root) == Opposite(CurrentTheme(v.root))
      && w.root != v.root
      && w.stored == w.root
      && w.rethemeCalls == v.rethemeCalls + HookCalls(env)
      && IconInSync(w)
      && w.systemListener == v.systemListener && w.clickListener
  {
  }

  /** The choice a click stores survives a reload: init on the next load,
      whatever the system prefers, applies the theme the click chose. */
  lemma ToggleChoicePersists(v: View, env: Env, systemPrefersDark: bool)
    requires v.clickListener
    ensures InitialTheme(AfterToggle(v, env).stored, systemPrefersDark) == Opposite(CurrentTheme(v.root))
  {
  }

  /** Two handled clicks bring the theme back: to the same attribute value
      when it was `"dark"` or `"light"`, and to the same theme reading in
      every case. */
  lemma ToggleTwiceRestores(v: View, env: Env)
    requires v.clickListener
    ensures var w := AfterToggle(AfterToggle(v, env), env);
      && CurrentTheme(w.root) == CurrentTheme(v.root)
      && (v.root == Some(Dark) || v.root == Some(Light) ==> w.root == v.root)
      && w.stored == w.root
      && w.rethemeCalls == v.rethemeCalls + 2 * HookCalls(env)
  {
    var u := AfterToggle(v, env);
    assert u.clickListener;
    OppositeInvolution(CurrentTheme(v.root));
  }

  /** A handled system change applies the theme `matches` asks for, calls the
      hook once, puts the icon in step and never writes storage. */
  lemma SystemChangeApplies(v: View, env: Env, matches: bool)
    requires v.systemListener
    ensures var w := AfterSystemChange(v, env, matches);
      && w.root == Some(SystemTheme(matches))
      && w.stored == v.stored
      && w.rethemeCalls == v.rethemeCalls + HookCalls(env)
      && IconInSync(w)
  {
  }

  /** No system change ever writes storage, handled or not. */
  lemma SystemChangeKeepsStorage(v: View, env: Env, matches: bool)
    ensures AfterSystemChange(v, env, matches).stored == v.stored
  {
  }

  /** Events never register or remove listeners. */
  lemma {:induction false} RunKeepsListeners(v: View, env: Env, events: seq<Event>)
    ensures Run(v, env, events).systemListener == v.systemListener
    ensures Run(v, env, events).clickListener == v.clickListener
    decreases |events|
  {
    if events != [] {
      RunKeepsListeners(Step(v, env, events[0]), env, events[1..]);
    }
  }

  /** Over any sequence of events, the hook runs exactly once per handled
      event when it is registered, and never otherwise. */
  lemma {:induction false} RunRethemes(v: View, env: Env, events: seq<Event>)
    ensures Run(v, env, events).rethemeCalls
         == v.rethemeCalls + HookCalls(env) * Handled(v.clickListener, v.systemListener, events)
    decreases |events|
  {
    if events != [] {
      var e, u := events[0], Step(v, env, events[0]);
      var handled := (e.Toggle? && v.clickListener) || (e.SystemChange? && v.systemListener);
      var h, rest := HookCalls(env), Handled(v.clickListener, v.systemListener, events[1..]);
      assert u.rethemeCalls == v.rethemeCalls + (if handled then h else 0);
      assert u.systemListener == v.systemListener && u.clickListener == v.clickListener;
      RunRethemes(u, env, events[1..]);
      assert Handled(v.clickListener, v.systemListener, events) == (if handled then 1 else 0) + rest;
      assert h * ((if handled then 1 else 0) + rest) == (if handled then h else 0) + h * rest;
    }
  }

  /** Once the icon agrees with the theme (as init leaves it), every later
      event keeps them in agreement. */
  lemma {:induction false} RunKeepsIconInSync(v: View, env: Env, events: seq<Event>)
    requires IconInSync(v)
    ensures IconInSync(Run(v, env, events))
    decreases |events|
  {
    if events != [] {
      RunKeepsIconInSync(Step(v, env, events[0]), env, events[1..]);
    }
  }

  /** Events that are only system changes never write storage. */
  lemma {:induction false} SystemChangesKeepStorage(v: View, env: Env, events: seq<Event>)
    requires forall i | 0 <= i < |events| :: events[i].SystemChange?
    ensures Run(v, env, events).stored == v.stored
    decreases |events|
  {
    if events != [] {
      SystemChangesKeepStorage(Step(v, env, events[0]), env, events[1..]);
    }
  }

  /** The system listener stays registered after a click: on a page that
      started without a preference, a click to dark followed by a system
      change to light shows light while storage keeps dark, which the next
      load applies. */
  lemma SystemChangeAfterToggle(env: Env, icon: string)
    requires env.hasButton && env.hasIcon
    ensures var v0 := View(None, None, icon, false, false, 0);
      var v1 := AfterInit(v0, env, false);
      var v2 := AfterToggle(v1, env);
      var v3 := AfterSystemChange(v2, env, false);
      && v1.root == Some(Light)
      && v2.root == Some(Dark) && v2.stored == Some(Dark)
      && v3.root == Some(Light) && v3.stored == Some(Dark)
      && AfterInit(View(None, v3.stored, icon, false, false, 0), env, false).root == Some(Dark)
  {
    var v0 := View(None, None, icon, false, false, 0);
    var v1 := AfterInit(v0, env, false);
    assert v1.root == Some(Light) && v1.clickListener && v1.systemListener;
    var v2 := AfterToggle(v1, env);
    assert v2.root == Some(Dark) && v2.stored == Some(Dark) && v2.systemListener;
    var v3 := AfterSystemChange(v2, env, false);
    assert v3.root == Some(Light) && v3.stored == Some(Dark);
  }

  // ---------------------------------------------------------------------------
  // The page itself

  /** The page's mutable theme state, over the fixed environment `env`. */
  class Page {
    const env: Env
    var root: Option<string>
    var stored: Option<string>
    var icon: string
    var systemListener: bool
    var clickListener: bool
    var rethemeCalls: nat

    function State(): View
      reads this
    {
      View(root, stored, icon, systemListener, clickListener, rethemeCalls)
    }

    /** A page as loaded: the root attribute, storage and icon `src` as the
        markup and earlier visits left them, no listeners, no hook calls. */
    constructor (env: Env, root: Option<string>, stored: Option<string>, icon: string)
      ensures this.env == env
      ensures State() == View(root, stored, icon, false, false, 0)
    {
      this.env := env;
      this.root := root;
      this.stored := stored;
      this.icon := icon;
      this.systemListener := false;
      this.clickListener := false;
      this.rethemeCalls := 0;
    }

    /** `applyTheme`. */
    method ApplyTheme(theme: string)
      modifies this
      ensures State() == Applied(old(State()), env, theme)
    {
      root := Some(theme);
      if env.hasHook {
        rethemeCalls := rethemeCalls + 1;
      }
    }

    /** `updateThemeIcon` on this page's icon element. */
    method UpdateThemeIcon(theme: string)
      modifies this
      ensures State() == WithIcon(old(State()), theme)
    {
      icon := if theme == Dark then BrightnessIcon else MoonIcon;
    }

    /** `initThemeToggle`, with the system colour-scheme reading passed in. */
    method InitThemeToggle(systemPrefersDark: bool)
      modifies this
      ensures State() == AfterInit(old(State()), env, systemPrefersDark)
    {
      if !env.hasButton || !env.hasIcon {
        return;
      }
      var storedTheme := stored;
      var initialTheme := if storedTheme.Some? && storedTheme.value != "" then storedTheme.value
                          else if systemPrefersDark then Dark else Light;
      ApplyTheme(initialTheme);
      UpdateThemeIcon(initialTheme);
      if !(storedTheme.Some? && storedTheme.value != "") {
        systemListener := true;
      }
      clickListener := true;
    }

    /** A click on the toggle button, dispatched to the click listener if
        init registered it. */
    method Click()
      modifies this
      ensures State() == AfterToggle(old(State()), env)
    {
      if !clickListener {
        return;
      }
      var currentTheme := if root == Some(Dark) then Dark else Light;
      var nextTheme := if currentTheme == Dark then Light else Dark;
      stored := Some(nextTheme);
      ApplyTheme(nextTheme);
      UpdateThemeIcon(nextTheme);
    }

    /** A system colour-scheme change, dispatched to the system listener if
        init registered it. */
    method SystemColorSchemeChange(matches: bool)
      modifies this
      ensures State() == AfterSystemChange(old(State()), env, matches)
    {
      if !systemListener {
        return;
      }
      var newTheme := if matches then Dark else Light;
      ApplyTheme(newTheme);
      UpdateThemeIcon(newTheme);
    }
  }
}
