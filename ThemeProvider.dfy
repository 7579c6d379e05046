/**
 The theme preference held by the app's root `ThemeProvider`: the current
 theme object (light or dark), the `darkMode` flag that mirrors it, and the
 key/value store (AsyncStorage) under whose `'theme'` key the preference is
 persisted. Two transitions change it: a load at mount, which resolves the
 preference from storage with a fallback to the system colour scheme, and a
 toggle, which flips the mode and writes the new mode's name back.
 */
module ThemeProvider {

  datatype Option<T> = None | Some(value: T)

  /** The two theme objects `lightTheme` and `darkTheme`, as opaque distinct values. */
  datatype Theme = Light | Dark

  /** The single storage key the provider reads and writes. */
  const ThemeKey: string := "theme"

  /** The names written to storage for the two modes. */
  const DarkName: string := "dark"
  const LightName: string := "light"

  /** AsyncStorage.getItem: the stored string, or null when the key is absent. */
  function GetItem(store: map<string, string>, key: string): (r: Option<string>)
    ensures r.Some? <==> key in store
    ensures r.Some? ==> r.value == store[key]
  {
    if key in store then Some(store[key]) else None
  }

  /** JavaScript truthiness of a nullable string: null and "" are falsy. */
  predicate Truthy(s: Option<string>)
  {
    s.Some? && s.value != ""
  }

  /** The theme object selected by a mode: `darkMode ? darkTheme : lightTheme`. */
  function ThemeOf(dark: bool): (t: Theme)
    ensures t == Dark <==> dark
  {
    if dark then Dark else Light
  }

  /** The name a toggle persists for a mode. */
  function NameOf(dark: bool): (name: string)
    ensures Truthy(Some(name))
    ensures name == DarkName <==> dark
  {
    if dark then DarkName else LightName
  }

  /**
   The mode a load resolves from the stored preference and the system colour
   scheme: a truthy stored string decides alone, and selects dark only when it
   is exactly "dark"; otherwise the system scheme decides, and only "dark"
   selects dark.
   */
  function Resolve(stored: Option<string>, system: Option<string>): (dark: bool)
    ensures stored == Some(DarkName) ==> dark
    ensures Truthy(stored) && stored != Some(DarkName) ==> !dark
    ensures !Truthy(stored) ==> (dark <==> system == Some(DarkName))
    ensures dark <==> stored == Some(DarkName) || (!Truthy(stored) && system == Some(DarkName))
  {
    if Truthy(stored) then stored.value == DarkName else system == Some(DarkName)
  }

  /** A snapshot of the provider: its two state variables and the storage. */
  datatype State = State(theme: Theme, darkMode: bool, store: map<string, string>)

  /** The provider's invariant: the theme object agrees with the flag. */
  predicate Inv(s: State)
  {
    s.theme == Dark <==> s.darkMode
  }

  /** Storage holds the name of the current mode under the theme key. */
  predicate Persisted(s: State)
  {
    ThemeKey in s.store && s.store[ThemeKey] == NameOf(s.darkMode)
  }

  /** The state at mount, before any load: light theme, dark mode off, storage as found. */
  function Initial(store: map<string, string>): (s: State)
    ensures Inv(s) && s.theme == Light && !s.darkMode && s.store == store
  {
    State(Light, false, store)
  }

  /** The effect of `loadTheme`, given the scheme `Appearance.getColorScheme()` reports. */
  function LoadStep(s: State, system: Option<string>): (r: State)
    ensures Inv(r)
    ensures r.store == s.store
    ensures r.darkMode == Resolve(GetItem(s.store, ThemeKey), system)
    ensures Persisted(s) ==> r.darkMode == s.darkMode && Persisted(r)
  {
    var dark := Resolve(GetItem(s.store, ThemeKey), system);
    State(ThemeOf(dark), dark, s.store)
  }

  /** The effect of `toggleTheme`. */
  function ToggleStep(s: State): (r: State)
    ensures Inv(r) && Persisted(r)
    ensures r.darkMode == !s.darkMode
    ensures r.store.Keys == s.store.Keys + {ThemeKey}
    ensures forall k :: k in s.store && k != ThemeKey ==> r.store[k] == s.store[k]
    ensures r.store[ThemeKey] == if s.darkMode then LightName else DarkName
  {
    var newTheme := if s.darkMode then Light else Dark;
    State(newTheme, !s.darkMode, s.store[ThemeKey := if s.darkMode then LightName else DarkName])
  }

  /** The user-visible events: a load with the system scheme of that moment, or a toggle. */
  datatype Event = LoadTheme(system: Option<string>) | ToggleTheme

  function Step(s: State, e: Event): State
  {
    match e
    case LoadTheme(system) => LoadStep(s, system)
    case ToggleTheme => ToggleStep(s)
  }

  /** The state after the events happen one after another, in order. */
  function Run(s: State, es: seq<Event>): State
    decreases |es|
  {
    if es == [] then s else Run(Step(s, es[0]), es[1..])
  }

  /** n toggles in a row. */
  function Toggles(n: nat): seq<Event>
  {
    if n == 0 then [] else [ToggleTheme] + Toggles(n - 1)
  }

  /** Every sequence of loads and toggles keeps the invariant. */
  lemma {:induction false} RunKeepsInv(s: State, es: seq<Event>)
    requires Inv(s)
    ensures Inv(Run(s, es))
    decreases |es|
  {
    if es != [] {
      RunKeepsInv(Step(s, es[0]), es[1..]);
    }
  }

  /** Loads never write storage: a run with no toggle leaves it as it was. */
  lemma {:induction false} LoadsKeepStore(s: State, es: seq<Event>)
    requires ToggleTheme !in es
    ensures Run(s, es).store == s.store
    decreases |es|
  {
    if es != [] {
      assert es[0] in es;
      assert forall i :: 0 <= i < |es[1..]| ==> es[1..][i] == es[i + 1];
      LoadsKeepStore(Step(s, es[0]), es[1..]);
    }
  }

  /** Once storage holds the current mode's name, every later load and toggle keeps it so. */
  lemma {:induction false} RunKeepsPersisted(s: State, es: seq<Event>)
    requires Persisted(s)
    ensures Persisted(Run(s, es))
    decreases |es|
  {
    if es != [] {
      RunKeepsPersisted(Step(s, es[0]), es[1..]);
    }
  }

  /** After any run that contains a toggle, storage holds the name of the current mode. */
  lemma {:induction false} PersistedAfterToggle(s: State, es: seq<Event>)
    requires ToggleTheme in es
    ensures Persisted(Run(s, es))
    decreases |es|
  {
    if es[0] == ToggleTheme {
      RunKeepsPersisted(Step(s, es[0]), es[1..]);
    } else {
      assert ToggleTheme in es[1..] by {
        var i :| 0 <= i < |es| && es[i] == ToggleTheme;
        assert i > 0 && es[1..][i - 1] == ToggleTheme;
      }
      PersistedAfterToggle(Step(s, es[0]), es[1..]);
    }
  }

  /**
   Store/reload round trip: after any run that contains a toggle, a freshly
   mounted provider over the same storage loads the same mode and theme,
   whatever the system scheme is then.
   */
  lemma ReloadAfterToggle(s: State, es: seq<Event>, system: Option<string>)
    requires Inv(s)
    requires ToggleTheme in es
    ensures LoadStep(Initial(Run(s, es).store), system).darkMode == Run(s, es).darkMode
    ensures LoadStep(Initial(Run(s, es).store), system).theme == Run(s, es).theme
  {
    PersistedAfterToggle(s, es);
    RunKeepsInv(s, es);
  }

  /**
   n toggles in a row: the mode flips n times, the theme follows it, and from
   the first toggle on storage holds the name of the mode reached.
   */
  lemma {:induction false} ToggleParity(s: State, n: nat)
    requires Inv(s)
    ensures Run(s, Toggles(n)).darkMode == (if n % 2 == 0 then s.darkMode else !s.darkMode)
    ensures Run(s, Toggles(n)).theme == ThemeOf(Run(s, Toggles(n)).darkMode)
    ensures n == 0 ==> Run(s, Toggles(n)).store == s.store
    ensures n > 0 ==> Run(s, Toggles(n)).store == s.store[ThemeKey := NameOf(Run(s, Toggles(n)).darkMode)]
    decreases n
  {
    if n > 0 {
      var t := ToggleStep(s);
      assert Toggles(n)[0] == ToggleTheme && Toggles(n)[1..] == Toggles(n - 1);
      ToggleParity(t, n - 1);
      assert Run(s, Toggles(n)) == Run(t, Toggles(n - 1));
    }
  }

  /** Toggling twice restores theme and mode; storage then names the restored mode. */
  lemma DoubleToggle(s: State)
    requires Inv(s)
    ensures ToggleStep(ToggleStep(s)) == State(s.theme, s.darkMode, s.store[ThemeKey := NameOf(s.darkMode)])
  {
    ToggleParity(s, 2);
    assert Toggles(2) == [ToggleTheme, ToggleTheme];
  }

  /** The provider component's state, updated in place by its two operations. */
  class Provider {
    var theme: Theme
    var darkMode: bool
    var store: map<string, string>

    function Snapshot(): State
      reads this
    {
      State(theme, darkMode, store)
    }

    ghost predicate Valid()
      reads this
    {
      Inv(Snapshot())
    }

    /** Mount: `useState(lightTheme)` and `useState(false)`, over the storage as found. */
    constructor (saved: map<string, string>)
      ensures Valid()
      ensures Snapshot() == Initial(saved)
    {
      theme := Light;
      darkMode := false;
      store := saved;
    }

    /** `loadTheme`: read the stored preference, fall back to the system scheme. */
    method Load(system: Option<string>)
      modifies this
      ensures Valid()
      ensures Snapshot() == LoadStep(old(Snapshot()), system)
      ensures store == old(store)
      ensures darkMode == Resolve(GetItem(store, ThemeKey), system)
    {
      var savedTheme := GetItem(store, ThemeKey);
      if Truthy(savedTheme) {
        theme := if savedTheme.value == DarkName then Dark else Light;
        darkMode := savedTheme.value == DarkName;
      } else {
        theme := if system == Some(DarkName) then Dark else Light;
        darkMode := system == Some(DarkName);
      }
    }

    /** `toggleTheme`: flip the mode and persist the new mode's name. */
    method Toggle()
      modifies this
      ensures Valid() && Persisted(Snapshot())
      ensures Snapshot() == ToggleStep(old(Snapshot()))
      ensures darkMode == !old(darkMode)
      ensures store == old(store)[ThemeKey := NameOf(darkMode)]
    {
      var newTheme := if darkMode then Light else Dark;
      theme := newTheme;
      var wasDark := darkMode;
      darkMode := !darkMode;
      store := store[ThemeKey := if wasDark then LightName else DarkName];
    }
  }

  /**
   A first start with no stored preference under a dark system scheme, one
   toggle, and a restart under any system scheme.
   */
  method RestartScenario(system: Option<string>) returns (loaded: bool, stored: Option<string>, reloaded: bool)
    ensures loaded
    ensures stored == Some(LightName)
    ensures !reloaded
  {
    var p := new Provider(map[]);
    p.Load(Some(DarkName));
    loaded := p.darkMode;
    p.Toggle();
    stored := GetItem(p.store, ThemeKey);
    var q := new Provider(p.store);
    q.Load(system);
    reloaded := q.darkMode;
  }
}
