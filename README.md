# Theme preference of the asset-inventory mobile client

This project models the theme-preference state machine of the app's root
`ThemeProvider` component (`theme/ThemeProvider.js`). The provider holds the
current theme object (light or dark) and a `darkMode` flag. It persists the
preference in AsyncStorage under the key `'theme'`. Two transitions change it:

- **Load** (`loadTheme`, run once at mount): a truthy stored string decides
  alone, and selects dark only when it is exactly `"dark"`. A missing (`null`)
  or empty stored string falls back to the system colour scheme
  (`Appearance.getColorScheme()`), where only `"dark"` selects dark.
- **Toggle** (`toggleTheme`): flips the mode, sets the matching theme object,
  and writes `"dark"` or `"light"` (the new mode's name) under `'theme'`.

Everything is in `ThemeProvider.dfy`, module `ThemeProvider`:

- `Theme = Light | Dark` stands for the two theme objects. Their contents are
  not modelled.
- AsyncStorage is a `map<string, string>`. `GetItem` returns `None` for an absent key.
- The system colour scheme is an `Option<string>` input to `Load`. `None`
  stands for `null`/`undefined`.
- `State`, `LoadStep` and `ToggleStep` are the value-level transitions.
  `Run` applies a sequence of `Event`s, and the lemmas about traces are stated over it.
- The class `Provider` has the fields `theme`, `darkMode` and `store`. Its
  constructor and its methods `Load` and `Toggle` update them in place, as the
  component does. Each method's postcondition ties the new state to the
  matching step function.

## Model

| member | source | states |
|---|---|---|
| ThemeProvider.Resolve | theme/ThemeProvider.js:15-23 | a stored `"dark"` gives dark; any other non-empty stored string gives light whatever the system says; a null or empty stored value gives dark exactly when the system scheme is `"dark"` |
| ThemeProvider.GetItem | theme/ThemeProvider.js:15 | the read yields a value exactly when the `'theme'` key is present, and then the stored string |
| ThemeProvider.NameOf | theme/ThemeProvider.js:32 | the persisted name is non-empty (truthy) and is `"dark"` exactly for dark mode, so a load reads it back as the same mode |
| ThemeProvider.Initial | theme/ThemeProvider.js:10-11 | before any load the state is the light theme with `darkMode` false, and the invariant holds |
| ThemeProvider.LoadStep | theme/ThemeProvider.js:13-26 | a load never writes storage, sets `darkMode` to the resolved mode and the theme to match it, and keeps a mode that storage already names |
| ThemeProvider.ToggleStep | theme/ThemeProvider.js:28-33 | a toggle negates `darkMode`, sets the matching theme, writes the new mode's name under `'theme'`, and leaves every other key unchanged |
| ThemeProvider.RunKeepsInv | theme/ThemeProvider.js:17-18 | any sequence of loads and toggles keeps `theme == Dark <==> darkMode` |
| ThemeProvider.LoadsKeepStore | theme/ThemeProvider.js:13-26 | a sequence of loads without a toggle leaves storage exactly as it was |
| ThemeProvider.RunKeepsPersisted | theme/ThemeProvider.js:15-18 | once storage names the current mode, later loads and toggles keep it that way |
| ThemeProvider.PersistedAfterToggle | theme/ThemeProvider.js:32 | after any sequence that contains a toggle, storage holds the name of the current mode |
| ThemeProvider.ReloadAfterToggle | theme/ThemeProvider.js:15-18 | round trip: after a toggle, a freshly mounted provider over the same storage loads the same mode and theme for any system scheme |
| ThemeProvider.ToggleParity | theme/ThemeProvider.js:28-33 | n toggles flip the mode n times, the theme follows the mode, and after at least one toggle storage names the mode reached |
| ThemeProvider.DoubleToggle | theme/ThemeProvider.js:28-33 | toggling twice restores theme and mode, and storage then names the restored mode |
| ThemeProvider.Provider.constructor | theme/ThemeProvider.js:10-11 | the mounted provider starts light with dark mode off, over the storage as found |
| ThemeProvider.Provider.Load | theme/ThemeProvider.js:14-24 | updates `theme` and `darkMode` in place to the resolved mode, keeps the invariant, and does not change storage |
| ThemeProvider.Provider.Toggle | theme/ThemeProvider.js:28-33 | updates `theme`, `darkMode` and storage in place: the mode is negated, the theme matches it, and `'theme'` holds its name |
| ThemeProvider.RestartScenario | theme/ThemeProvider.js:13-33 | with no stored preference and a dark system scheme the load gives dark; one toggle stores `"light"`; a restart then loads light under any system scheme |

## Left out

- React machinery: `createContext`, `useContext`, the Provider rendering and the `useEffect` scheduling. The model calls `Load` explicitly.
- Asynchrony: the model runs `loadTheme` and `toggleTheme` one after another. It does not capture a toggle that lands before the load's storage read resolves, or a stale `darkMode` captured by an older render's closure.
- A failing AsyncStorage read or write. The source does not handle these (no `try`/`catch`), and storage calls here always succeed.
- The contents of `lightTheme` and `darkTheme` from `./themes`. `./themes` is not part of this model; the two objects are opaque distinct values.
- `Appearance` internals: the system colour scheme is a parameter of `Load`.
- The other screens of the app (QR lookup, room listing and editing, login and registration). They are not part of this model.
