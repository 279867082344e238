# Application state container

This project models the state container of a small React demonstration app. The
container holds four independent slices:

- the **user**: name, email and whether someone is logged in;
- the **theme**: a light or dark mode and a primary colour;
- the **counter**: a count and the step that increments and decrements use;
- the **notifications**: an ordered list of messages.

Thirteen actions each replace one slice with a value computed from the previous
state. The app writes the container twice with the same contract:

- a global store: `src/store/appStore.ts`;
- a context provider with one state cell per field (the counter's count and step are
  two cells) and helper hooks around it:
  `src/context/CounterContext.tsx`.

The model has these parts:

- `AppState` (`app_state.dfy`) holds the data model, the initial state and the pure
  value each action computes. That covers the spread updates, the append, and the
  index filter `RemoveAt`. It also holds `Apply`, a reducer that applies one action to
  a whole state, and `Run`, which applies a sequence of actions in order.
- `Properties` (`properties.dfy`) holds the lemmas about those functions.
- `Store.AppStore` (`store.dfy`) is the global store as a class. Its five fields hold
  the four slices, and it has one method per action that modifies only `this`.
- `Provider.AppProvider` (`provider.dfy`) is the context variant as a class. Its
  fields are the five state cells. It has one method per helper, plus the
  `setCount`/`setStep` setters that `useCounter` hands out. `Provider.UseApp` is the
  missing-provider guard.

Every method of both classes ensures `Snapshot() == Apply(old(Snapshot()), a)` for
its action `a`. Each method also states the new value of its slice and that every
other field is unchanged. Because both classes meet the same `Apply`, the two
variants compute the same slice values. `Provider.AgreeOnAction` states this agreement
directly: from any common state, the same action on a store and on a provider leaves
them in equal states. `Provider.SameSession` checks it on one session covering all
thirteen actions, from fresh objects. Each action's partner is a
lemma about `Apply` or `Run`:

- an inverse action (`InversePairs`);
- idempotence (`OverwritesAreIdempotent`);
- an independent reference definition: the slice formula for `RemoveAt`, and the step
  sum for the counter.

The initial state and `logout` give an empty, logged-out user, but this is not an
invariant. `updateName` sets the name whatever `isLoggedIn` is
(`src/store/appStore.ts:84-87`, `src/context/CounterContext.tsx:119-121`). So the
model proves only that the initial state and `logout` give the empty user, and
`RenameWhileLoggedOut` shows a logged-out user with a name.

## Model

| member | source | states |
|---|---|---|
| `AppState.Flip` | src/store/appStore.ts:94 | the toggled mode is the other of the two modes |
| `AppState.Toggled` | src/store/appStore.ts:90-96 | toggleTheme changes the mode and keeps the primary colour |
| `AppState.Recolored` | src/store/appStore.ts:98-101 | setPrimaryColor stores the given text as the colour, with no validation, and keeps the mode |
| `AppState.Renamed` | src/store/appStore.ts:84-87 | updateName replaces the name and keeps email and isLoggedIn |
| `AppState.Appended` | src/store/appStore.ts:121-124 | addNotification grows the list by one, keeps the earlier prefix and puts the message last |
| `AppState.RemoveAt` | src/store/appStore.ts:126-129 | filtering out position `index` shortens the list by one exactly when `index` is a position of the list |
| `AppState.Apply` | src/store/appStore.ts:73-131 | each of the 13 actions replaces only its own field; every other field keeps its value |
| `Properties.RemoveAtSlices` | src/store/appStore.ts:126-129 | removeNotification removes exactly element `index` when `0 <= index < length`, and leaves the list unchanged otherwise |
| `Properties.RemoveAtShifts` | src/store/appStore.ts:128 | after a removal, elements before `index` stay in place and later ones move down by one |
| `Properties.InversePairs` | src/store/appStore.ts:90-129 | increment then decrement (and the reverse) restore the state; toggleTheme twice restores it; removing the notification just added restores it |
| `Properties.OverwritesAreIdempotent` | src/store/appStore.ts:74-131 | login, logout, updateName, setPrimaryColor, reset, setCount, setStep and clearNotifications give the same state when applied twice as once |
| `Properties.LogoutEmptiesUser` | src/store/appStore.ts:60-82 | the initial user and the user after logout are `{"", "", false}` whatever the previous user was |
| `Properties.RepeatedToggles` | src/store/appStore.ts:90-96 | after n toggles the state is unchanged for even n and toggled once for odd n, so the colour never changes |
| `Properties.CountIsStepSum` | src/store/appStore.ts:104-118 | without reset or setCount, the final count is the first count plus each increment's step minus each decrement's step, each step taken at call time; the final step is the last one set |
| `Properties.ResetAndSetStep` | src/store/appStore.ts:114-118 | reset sets count to 0 and keeps step; setStep sets step and keeps count |
| `Properties.CounterScenario` | src/store/appStore.ts:104-118 | from the initial state, setStep(5) and two increments give 10, then setStep(1) and a decrement give 9 |
| `Properties.AddsKeepOrder` | src/store/appStore.ts:121-124 | successive addNotification calls append their messages in insertion order and touch nothing else |
| `Properties.AddThenClear` | src/store/appStore.ts:121-131 | add then clear gives the empty list; adding "a" then "b" appends `["a", "b"]` |
| `Properties.RenameWhileLoggedOut` | src/store/appStore.ts:84-87 | updateName sets the name of a logged-out user, so logged-out does not imply an empty name |
| `Store.AppStore.constructor` | src/store/appStore.ts:58-71 | the store starts with user `{"", "", false}`, theme light with `#3b82f6`, count 0, step 1 and no notifications |
| `Store.AppStore.Login` | src/store/appStore.ts:74-77 | the user becomes `{name, email, true}` whatever it was; other fields unchanged |
| `Store.AppStore.Logout` | src/store/appStore.ts:79-82 | the user becomes `{"", "", false}`; other fields unchanged |
| `Store.AppStore.UpdateName` | src/store/appStore.ts:84-87 | only `user.name` changes |
| `Store.AppStore.ToggleTheme` | src/store/appStore.ts:90-96 | the mode flips and the colour is kept; other fields unchanged |
| `Store.AppStore.SetPrimaryColor` | src/store/appStore.ts:98-101 | the colour becomes the argument verbatim and the mode is kept |
| `Store.AppStore.Increment` | src/store/appStore.ts:104-107 | count becomes count + step, with the current step; step unchanged |
| `Store.AppStore.Decrement` | src/store/appStore.ts:109-112 | count becomes count - step; step unchanged |
| `Store.AppStore.Reset` | src/store/appStore.ts:114 | count becomes 0; step and everything else unchanged |
| `Store.AppStore.SetCount` | src/store/appStore.ts:116 | count becomes the argument; step unchanged |
| `Store.AppStore.SetStep` | src/store/appStore.ts:118 | step becomes the argument, with no bound; count unchanged |
| `Store.AppStore.AddNotification` | src/store/appStore.ts:121-124 | the message is appended at the end |
| `Store.AppStore.RemoveNotification` | src/store/appStore.ts:126-129 | element `index` is removed when in range; otherwise the list is unchanged |
| `Store.AppStore.ClearNotifications` | src/store/appStore.ts:131 | the list becomes empty |
| `Store.CounterSession` | src/store/appStore.ts:104-118 | a fresh store reaches count 10 after setStep(5) and two increments, then 9 after setStep(1) and a decrement |
| `Store.UserSession` | src/store/appStore.ts:74-87 | after login("John Doe", "john@example.com") then updateName("Jane Doe"), the user is Jane Doe with the same email, still logged in |
| `Provider.AppProvider.constructor` | src/context/CounterContext.tsx:57-76 | the provider's cells start at the same defaults as the store |
| `Provider.AppProvider.Login` | src/context/CounterContext.tsx:111-113 | the user cell becomes `{name, email, true}`; other cells unchanged |
| `Provider.AppProvider.Logout` | src/context/CounterContext.tsx:115-117 | the user cell becomes `{"", "", false}` |
| `Provider.AppProvider.UpdateName` | src/context/CounterContext.tsx:119-121 | only the name of the previous user changes |
| `Provider.AppProvider.ToggleTheme` | src/context/CounterContext.tsx:129-134 | the mode flips and the colour is kept |
| `Provider.AppProvider.SetPrimaryColor` | src/context/CounterContext.tsx:136-138 | only the colour changes |
| `Provider.AppProvider.Increment` | src/context/CounterContext.tsx:146 | count becomes the previous count + step |
| `Provider.AppProvider.Decrement` | src/context/CounterContext.tsx:147 | count becomes the previous count - step |
| `Provider.AppProvider.Reset` | src/context/CounterContext.tsx:148 | count becomes 0 |
| `Provider.AppProvider.SetCount` | src/context/CounterContext.tsx:143-154 | the count cell setter replaces count only |
| `Provider.AppProvider.SetStep` | src/context/CounterContext.tsx:143-154 | the step cell setter replaces step only |
| `Provider.AppProvider.AddNotification` | src/context/CounterContext.tsx:164-166 | the message is appended at the end |
| `Provider.AppProvider.RemoveNotification` | src/context/CounterContext.tsx:168-170 | only position `index` is dropped; an out-of-range index changes nothing |
| `Provider.AppProvider.ClearNotifications` | src/context/CounterContext.tsx:172-174 | the list becomes empty |
| `Provider.UseApp` | src/context/CounterContext.tsx:99-105 | without a provider the result is the error "useApp must be used within an AppProvider"; with one it is that provider, in both directions |
| `Provider.CounterSession` | src/context/CounterContext.tsx:143-148 | a fresh provider runs the counter scenario to the same counts as the store: 10, then 9 |
| `Provider.SameSession` | src/context/CounterContext.tsx:107-182 | the same calls through all thirteen actions leave a fresh global store and a fresh provider in equal states, with the expected user, theme, count, step and list |
| `Provider.AgreeOnAction` | src/context/CounterContext.tsx:107-182 | for every action and every state the store and the provider share, applying the action to both leaves them in equal states, namely the state `Apply` gives |

## Left out

- The zustand and React machinery is not modelled: `create`, selector subscriptions,
  `useState`/`useContext` propagation and re-render scheduling
  (`src/store/appStore.ts:134-176`, `src/context/CounterContext.tsx:78-95`). It is
  framework plumbing with no logic of its own. Actions are applied one at a time,
  in call order.
- The UI components (`src/App.tsx`, `src/components/*.tsx`) are not modelled. They
  only render and wire events.
- JavaScript number semantics are not modelled. `count`, `step` and `index` are
  unbounded integers. NaN, fractional values, infinities and rounding of the source's
  doubles are not captured. For example, a fractional index removes nothing in the
  source and cannot be written here.
- Stale closures in the context variant are not modelled. The context's `increment`
  and `decrement` read the `step` of the last render. In a sequential model that is
  the current step.
- The raw setters `setUser`, `setTheme` and `setNotifications` that the context
  exposes are left out. They replace a slice with an arbitrary value and promise
  nothing more.
- `Provider.AppProvider.SetCount` and `Provider.AppProvider.SetStep` model only the
  value form of the context's `setCount` and `setStep`. These are React state setters
  (`src/context/CounterContext.tsx:38`, `:42`, `:153-154`), so they also accept an
  updater `prev => ...`. That form is not modelled.
- The context's action helpers are reached only through `useApp`. The model states
  the missing-provider error once, in `Provider.UseApp`, and gives the provider's
  methods an existing provider.
- Notification texts built from the clock (`src/App.tsx:46`) are not modelled;
  messages are arbitrary strings.
