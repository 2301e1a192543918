# React Hooks demo: a Dafny model of its state machines

The repository is a single-page demo of React's state and lifecycle hooks. Beneath its
markup sit a handful of small, closed state machines, and this project models them in
Dafny and proves what each one promises:

- the two reducers of the useReducer page (a counter and a todo list) and its
  "Add Todo" handler (module `Reducers`, `reducers.dfy`);
- the responsive navigation bar's `isOpen`/`isMobile` cells (`Navbar`, `navbar.dfy`);
- the useState page's click counter and three-field form (`StateExamples`);
- the useContext page's theme provider with its `data-theme` sync, the user provider,
  the login form, and the error a consumer throws outside its provider (`ContextExamples`);
- the useRef page's interval-handle timer and previous-count ref (`RefExamples`);
- the useEffect page's user fetch with its `isMounted` guard, the keydown listener and the
  interval timer (`EffectExamples`);
- the useLayoutEffect page's column count, numbered item list with scroll correction, and
  expandable box (`LayoutEffectExamples`);
- the generic `useFetch` hook's settlement of `{data, loading, error}` (`Fetch`).

Helper modules: `Wrappers` (Option, Result), `Text` (JavaScript's `trim` and the decimal
form of a number, with a parse/print round trip), `Intervals` (interval handles and their
JavaScript truthiness).

Each page component whose cells change in place is a `class` whose fields are those cells
and whose methods are its event handlers and effects. Where a page's behaviour is worth
reasoning about over many events, its state is also a datatype with pure step functions
(`Navbar.Step`, `RefExamples.Start`/`Stop`, `EffectExamples.UserCardStep`,
`EffectExamples.TimerStep`, ...); every class method ensures that its new state is the step
function applied to its old state, and the lemmas about the step functions carry the
properties (invariants kept over every event sequence, idempotence, involution).

The pure reducers are functions over datatypes with an exhaustive `match`, so the source's
"Unhandled action type" throw is unreachable and has no counterpart.

Times, handles and measurements are inputs: `Date.now()` is the `now` parameter of an
ADD_TODO (no uniqueness is assumed); `window.setInterval`'s result is the `handle` of the
event that creates an interval (a positive integer not already in use, as browsers
guarantee); `window.innerWidth`, `clientWidth`, `scrollTop` and `scrollHeight` are integer
parameters of the events that read them; a timer tick is an event naming the interval
that fires; the network and JSON parsing are the outcome they produce.

Points where the model follows the code rather than a looser reading of it:

- React skips a re-render and the effects when a state cell is set to the value it holds.
  So "Previous User" at `userId` 1 starts no fetch, and the useEffect timer's Reset starts
  no effect run when the timer was not running.
- The useEffect page never checks `response.ok`. Any body that parses as JSON becomes
  `userData`; only a throw leaves `userData` alone.
- `useFetch` never sets `loading` back to true when the url changes, never clears an
  earlier `error` on a later success, and never cancels a retrieval. Retrievals settle in
  any order, and the one that settles last decides `data`.
- The scroll correction uses the `scrollTop`/`scrollHeight` that the previous layout effect
  captured. A scroll the user makes after that commit is overwritten by the next
  "Add Item" (`ScrollList.UserScroll`, then `ScrollList.AddItemClick`).
- `trim` removes exactly the ECMAScript WhiteSpace and LineTerminator code points, listed
  in `Text.IsWhitespace`.

## Model

| member | source | states |
|---|---|---|
| `Reducers.CounterReducer` | src/pages/UseReducerExamples.tsx:30-41 | INCREMENT adds one and DECREMENT subtracts one (the count moves by the action's net count), and RESET yields `{count: 0}` whatever the prior state |
| `Reducers.CounterRun` | src/pages/UseReducerExamples.tsx:30-41 | dispatching a sequence that ends with RESET leaves `{count: 0}` |
| `Reducers.CounterRunAppend` | src/pages/UseReducerExamples.tsx:30-41 | dispatching `a + b` is dispatching `a`, then `b` |
| `Reducers.CounterRunNet` | src/pages/UseReducerExamples.tsx:33-35 | from any count, a reset-free action sequence moves the count by exactly #INCREMENT − #DECREMENT |
| `Reducers.CounterFromInit` | src/pages/UseReducerExamples.tsx:33-43 | from the initial `{count: 0}`, a reset-free sequence ends at #INCREMENT − #DECREMENT, which may be negative |
| `Reducers.ResetForgetsHistory` | src/pages/UseReducerExamples.tsx:36-37 | whatever came before a RESET, the final count depends only on the actions after it, replayed from 0 |
| `Reducers.ToggleMatching` | src/pages/UseReducerExamples.tsx:59-65 | the mapped list has the same length and ids and texts position by position; `completed` flips exactly at the positions whose id matches |
| `Reducers.KeepOthers` | src/pages/UseReducerExamples.tsx:67-69 | the filtered list holds no record with the id, keeps every record with another id, and is no longer than the input |
| `Reducers.TodoReducer` | src/pages/UseReducerExamples.tsx:46-74 | ADD_TODO appends exactly one record `{now, text, false}` at the end with the old list as an unchanged prefix; TOGGLE_TODO is the map and DELETE_TODO the filter above |
| `Reducers.ToggleAbsent` | src/pages/UseReducerExamples.tsx:59-65 | toggling an id no record carries returns the list unchanged |
| `Reducers.ToggleTwice` | src/pages/UseReducerExamples.tsx:59-65 | toggling the same id twice restores the list |
| `Reducers.KeepOthersAppend` | src/pages/UseReducerExamples.tsx:67-69 | the filter distributes over concatenation, so the kept records stay in their original relative order |
| `Reducers.KeepOthersSingle` | src/pages/UseReducerExamples.tsx:69 | a single record survives the filter exactly when its id differs from the action's |
| `Reducers.KeepOthersMultiset` | src/pages/UseReducerExamples.tsx:67-69 | every record with another id is kept as many times as it occurred, and every record with the id is removed |
| `Reducers.KeepOthersLength` | src/pages/UseReducerExamples.tsx:67-69 | deleting shortens the list by exactly the number of records carrying the id |
| `Reducers.DeleteAbsent` | src/pages/UseReducerExamples.tsx:67-69 | DELETE_TODO with an absent id is a no-op |
| `Reducers.CountIdUnique` | src/pages/UseReducerExamples.tsx:53 | when ids are distinct (nothing guarantees this of `Date.now()` stamps), an id occurs once if present and never otherwise |
| `Reducers.DeleteUniqueRemovesOne` | src/pages/UseReducerExamples.tsx:67-69 | with distinct ids, deleting a present id shortens the list by exactly one |
| `Reducers.AddAllInOrder` | src/pages/UseReducerExamples.tsx:48-57 | adding texts one by one keeps the old list as a prefix and appends the texts in insertion order, each with its stamp and `completed = false` |
| `Reducers.TodoCard.constructor` | src/pages/UseReducerExamples.tsx:76-77 | the todo list and the input start empty |
| `Reducers.TodoCard.EditInput` | src/pages/UseReducerExamples.tsx:181 | typing sets `newTodo` and leaves the list alone |
| `Reducers.TodoCard.HandleAddTodo` | src/pages/UseReducerExamples.tsx:79-84 | when the input is not all whitespace, appends the untrimmed text and clears the input; whitespace-only input changes nothing |
| `Reducers.TodoCard.ToggleClick` | src/pages/UseReducerExamples.tsx:193-196 | a click on a record's text sets the list to the TOGGLE_TODO map for its id; the input is unchanged |
| `Reducers.TodoCard.DeleteClick` | src/pages/UseReducerExamples.tsx:200-204 | a click on Delete sets the list to the DELETE_TODO filter for its id; the input is unchanged |
| `Text.AsciiWhitespace` | src/pages/UseReducerExamples.tsx:80 | for the whitespace set `trim` removes (`IsWhitespace`): space, tab, newline and carriage return are whitespace; no printable ASCII character is |
| `Text.TrimStart` | src/pages/UseReducerExamples.tsx:80 | the longest suffix not starting with whitespace; what it drops is all whitespace |
| `Text.TrimEnd` | src/pages/UseReducerExamples.tsx:80 | the longest prefix not ending with whitespace; what it drops is all whitespace |
| `Text.Trim` | src/pages/UseReducerExamples.tsx:80 | no longer than `s`, and neither starts nor ends with whitespace |
| `Text.NatToString` | src/hooks/useFetch.ts:19 | a non-empty digit string with no leading zero, as `${n}` prints it |
| `Text.TrimEmptyIffBlank` | src/pages/UseReducerExamples.tsx:80 | `s.trim()` is empty (falsy) exactly when every character of `s` is JavaScript whitespace |
| `Navbar.InitialInv` | src/components/Navbar.tsx:6-7 | the mount state (`isOpen` false, `isMobile` = width < 768) satisfies `!isMobile ⇒ !isOpen` |
| `Navbar.Initial` | src/components/Navbar.tsx:6-7 | the menu starts closed and `isMobile` is width < 768 |
| `Navbar.Step` | src/components/Navbar.tsx:10-43 | each event keeps the invariant; a click never changes `isMobile` and does nothing while the burger is hidden; a resize sets `isMobile` from the width |
| `Navbar.Resized` | src/components/Navbar.tsx:10-15 | a resize sets `isMobile` to width < 768, forces `isOpen` false at width ≥ 768, leaves `isOpen` alone below 768, and establishes the invariant from any state |
| `Navbar.Toggled` | src/components/Navbar.tsx:21-23 | `toggleMenu` flips `isOpen` and leaves `isMobile` alone |
| `Navbar.RunKeepsInv` | src/components/Navbar.tsx:6-43 | every sequence of resizes and burger clicks (clicks reach `toggleMenu` only while the button is rendered on mobile) keeps `!isMobile ⇒ !isOpen` |
| `Navbar.ToggleTwice` | src/components/Navbar.tsx:21-23 | toggling twice restores the state |
| `Navbar.ResizeIdempotent` | src/components/Navbar.tsx:10-15 | two resizes to the same width have the effect of one |
| `Navbar.ShrinkOpenGrow` | src/components/Navbar.tsx:10-23 | 1024 → 500 turns the mobile layout on; after opening the menu, 500 → 1024 turns it off and closes the menu |
| `Navbar.NavBar.constructor` | src/components/Navbar.tsx:6-7 | mount state is `isOpen = false`, `isMobile = (width < 768)` |
| `Navbar.NavBar.HandleResize` | src/components/Navbar.tsx:10-15 | sets `isMobile := width < 768` and, at 768 or more, `isOpen := false`; the invariant is kept |
| `Navbar.NavBar.ToggleMenu` | src/components/Navbar.tsx:21-43 | callable only while the burger button is rendered (`isMobile`); flips `isOpen` and keeps the invariant |
| `StateExamples.CounterCard.constructor` | src/pages/UseStateExamples.tsx:12 | `count` starts at 0 |
| `StateExamples.CounterCard.Click` | src/pages/UseStateExamples.tsx:40 | the count button sets `count` to `count + 1` |
| `StateExamples.CounterCard.Reset` | src/pages/UseStateExamples.tsx:43 | Reset sets `count` to 0 from any value |
| `StateExamples.Merge` | src/pages/UseStateExamples.tsx:21-24 | after a change event for field `name`, that field holds `value` and the other two fields are identical to before |
| `StateExamples.MergeIdempotent` | src/pages/UseStateExamples.tsx:23 | applying the same change event twice equals applying it once |
| `StateExamples.MergeCommutes` | src/pages/UseStateExamples.tsx:23 | change events on two different fields commute |
| `StateExamples.FormCard.constructor` | src/pages/UseStateExamples.tsx:15-19 | username, email and password all start empty |
| `StateExamples.FormCard.HandleInputChange` | src/pages/UseStateExamples.tsx:21-24 | sets the named field to the value and leaves the other two unchanged |
| `ContextExamples.Toggled` | src/pages/UseContextExamples.tsx:24-26 | the toggle always changes the theme (light ↔ dark) |
| `ContextExamples.ToggleInvolution` | src/pages/UseContextExamples.tsx:24-26 | toggling twice is the identity |
| `ContextExamples.ToggleParity` | src/pages/UseContextExamples.tsx:17-26 | from `'light'`, an odd number of toggles gives dark and an even number gives light |
| `ContextExamples.ThemeName` | src/pages/UseContextExamples.tsx:17-22 | the `data-theme` value is "light" or "dark", and "dark" exactly for the dark theme |
| `ContextExamples.UsageError` | src/pages/UseContextExamples.tsx:39 | the message starts with the consumer's name and ends with the provider's |
| `ContextExamples.ThemeProvider.constructor` | src/pages/UseContextExamples.tsx:16-22 | the theme starts `'light'` and, after the first commit, `data-theme` is `"light"` |
| `ContextExamples.ThemeProvider.ToggleTheme` | src/pages/UseContextExamples.tsx:20-26 | flips the theme, and after the commit the document's `data-theme` equals the new theme |
| `ContextExamples.UseContext` | src/pages/UseContextExamples.tsx:36-40 | a consumer reads the provided value when inside a provider and fails with "<consumer> must be used within a <provider>" exactly when outside |
| `ContextExamples.ThemedButtonLabel` | src/pages/UseContextExamples.tsx:35-52 | inside a provider the button reads "Toggle Theme (<theme>)"; outside it fails with the ThemeProvider usage error |
| `ContextExamples.UserProfile` | src/pages/UseContextExamples.tsx:90-111 | fails outside a UserProvider; inside, shows the login prompt exactly when `user` is null and otherwise the user's name and email |
| `ContextExamples.LoginFormGuard` | src/pages/UseContextExamples.tsx:113-118 | `LoginForm` fails with its usage error exactly when outside a UserProvider |
| `ContextExamples.UserProvider.constructor` | src/pages/UseContextExamples.tsx:73 | `user` starts null |
| `ContextExamples.UserProvider.Login` | src/pages/UseContextExamples.tsx:75-77 | `login(u)` sets `user` to `u` |
| `ContextExamples.UserProvider.Logout` | src/pages/UseContextExamples.tsx:79-81 | `logout` sets `user` to null from any state |
| `ContextExamples.LoginForm.constructor` | src/pages/UseContextExamples.tsx:121 | both form fields start empty |
| `ContextExamples.LoginForm.EditName` | src/pages/UseContextExamples.tsx:138 | editing the name sets it and leaves the email unchanged |
| `ContextExamples.LoginForm.EditEmail` | src/pages/UseContextExamples.tsx:149 | editing the email sets it and leaves the name unchanged |
| `ContextExamples.LoginForm.Submit` | src/pages/UseContextExamples.tsx:123-155 | reachable only with a non-empty name and a valid email, as the `required` and `type="email"` inputs demand; logs in with the form data, so the user is never empty, then resets both fields |
| `ContextExamples.EmailExamples` | src/pages/UseContextExamples.tsx:145-151 | "ann@example.com" is a valid address; "", "ann" and "ann@" are not |
| `RefExamples.TickAddsOne` | src/pages/UseRefExamples.tsx:19-21 | a tick of the live interval adds exactly 1 to `timer` and changes nothing else |
| `RefExamples.TimerOpsKeepInv` | src/pages/UseRefExamples.tsx:17-100 | Start (with a fresh positive handle), Stop, Reset and a tick of any interval each keep "one interval runs exactly while the ref holds its handle" |
| `RefExamples.StartIdempotent` | src/pages/UseRefExamples.tsx:17-23 | a second Start is a no-op and exactly one interval runs |
| `RefExamples.StopIdempotent` | src/pages/UseRefExamples.tsx:92-97 | Stop clears the interval and nulls the handle; a second Stop does nothing |
| `RefExamples.StartAfterStop` | src/pages/UseRefExamples.tsx:17-97 | after Stop, Start creates a new interval again |
| `RefExamples.ResetKeepsRunning` | src/pages/UseRefExamples.tsx:98-100 | Reset zeroes `timer` but keeps the handle and the interval, whose next tick gives 1 |
| `RefExamples.UseRefPage.constructor` | src/pages/UseRefExamples.tsx:4-31 | mount: empty input, `timer` 0, handle null, no interval, `count` 0; the first render shows an undefined previous value and the effect then records 0 |
| `RefExamples.UseRefPage.Render` | src/pages/UseRefExamples.tsx:120-121 | a render shows `count` and the current `prevCountRef.current`, and changes no cell |
| `RefExamples.UseRefPage.EditInput` | src/pages/UseRefExamples.tsx:63-67 | typing sets `inputValue`; a changed value re-renders the page, so the counter card shows its count as both Current and Previous |
| `RefExamples.UseRefPage.StartTimer` | src/pages/UseRefExamples.tsx:17-23 | creates an interval only when the handle is null (falsy); keeps the invariant and re-renders nothing |
| `RefExamples.UseRefPage.StopTimer` | src/pages/UseRefExamples.tsx:92-97 | clears the interval and nulls the handle when one is held, otherwise nothing; re-renders nothing |
| `RefExamples.UseRefPage.ResetClick` | src/pages/UseRefExamples.tsx:98-100 | sets `timer` to 0 and leaves the handle untouched; re-renders unless `timer` was already 0 |
| `RefExamples.UseRefPage.TickEvent` | src/pages/UseRefExamples.tsx:19-21 | each tick of the live interval increments `timer` by exactly 1, and the re-render shows Previous equal to Current |
| `RefExamples.UseRefPage.Increment` | src/pages/UseRefExamples.tsx:26-31 | sets `count` to `count + 1`; the re-render shows the new count with the prior committed count as Previous; after the commit the ref equals `count` |
| `RefExamples.Start` | src/pages/UseRefExamples.tsx:17-23 | with a null (falsy) handle, stores the new handle and starts its interval; otherwise a no-op; keeps the invariant for a fresh positive handle |
| `RefExamples.Stop` | src/pages/UseRefExamples.tsx:92-97 | a truthy handle is cleared and nulled; under the invariant no interval remains afterwards |
| `RefExamples.ResetTimer` | src/pages/UseRefExamples.tsx:98-100 | `timer` becomes 0; the handle and the live intervals are untouched |
| `RefExamples.Tick` | src/pages/UseRefExamples.tsx:19-21 | `timer` grows by 1 exactly when the firing interval is live, and nothing else changes |
| `EffectExamples.Refetch` | src/pages/UseEffectExamples.tsx:10-40 | a `userId` change clears the old run's `isMounted`, starts a mounted run, sets `loading` true and keeps `userData` and the settled runs |
| `EffectExamples.PreviousUser` | src/pages/UseEffectExamples.tsx:115 | Previous gives `max(1, id − 1)`; above 1 it re-runs the effect (`Refetch`), at 1 nothing changes and no fetch starts |
| `EffectExamples.NextUser` | src/pages/UseEffectExamples.tsx:119 | Next gives `id + 1` and re-runs the effect (`Refetch`): old run unmounted, a new mounted run, `loading` true |
| `EffectExamples.Settle` | src/pages/UseEffectExamples.tsx:20-31 | a mounted run ends `loading` and stores parsed data, a failed one keeps `userData`, and a run whose flag is down changes neither `userData` nor `loading` |
| `EffectExamples.Unmount` | src/pages/UseEffectExamples.tsx:37-39 | the cleanup lowers only the latest run's `isMounted` |
| `EffectExamples.UserCardStep` | src/pages/UseEffectExamples.tsx:8-119 | each event keeps `userId ≥ 1` with at most the latest run mounted, never drops a run, and after unmount no button changes `userId` |
| `EffectExamples.UserCardRun` | src/pages/UseEffectExamples.tsx:8-119 | any history of Previous, Next, settlements and unmount keeps `userId ≥ 1` and at most the latest run mounted |
| `EffectExamples.UserIdAlwaysPositive` | src/pages/UseEffectExamples.tsx:8-119 | from mount (`userId` 1), `userId ≥ 1` after any history |
| `EffectExamples.StaleResultIgnored` | src/pages/UseEffectExamples.tsx:11-38 | a result of a superseded run, or one arriving after unmount, changes neither `userData` nor `loading` |
| `EffectExamples.FailedFetchKeepsData` | src/pages/UseEffectExamples.tsx:26-31 | a failed fetch of the live run leaves `userData` unchanged and sets `loading` false |
| `EffectExamples.UserCard.constructor` | src/pages/UseEffectExamples.tsx:6-14 | `userId` 1, `loading` true, no data, and the first run under way |
| `EffectExamples.UserCard.PreviousClick` | src/pages/UseEffectExamples.tsx:115 | the Previous button follows `PreviousUser` and keeps the invariant |
| `EffectExamples.UserCard.NextClick` | src/pages/UseEffectExamples.tsx:119 | the Next button follows `NextUser` and keeps the invariant |
| `EffectExamples.UserCard.Resolve` | src/pages/UseEffectExamples.tsx:15-32 | the try/catch/finally of a run's `fetchUser`, guarded by that run's `isMounted` |
| `EffectExamples.UserCard.Cleanup` | src/pages/UseEffectExamples.tsx:37-39 | the cleanup sets the live run's `isMounted` to false |
| `EffectExamples.LastKeyWins` | src/pages/UseEffectExamples.tsx:46-48 | after a non-empty sequence of keydowns, `keyPressed` is the last key |
| `EffectExamples.KeyListener.constructor` | src/pages/UseEffectExamples.tsx:43 | `keyPressed` starts null |
| `EffectExamples.KeyListener.KeyDown` | src/pages/UseEffectExamples.tsx:46-48 | a keydown stores `e.key` |
| `EffectExamples.TimerStepEffects` | src/pages/UseEffectExamples.tsx:57-198 | Start/Pause flips `isTimerRunning` and keeps `timer`; Reset stops, zeroes `timer` and leaves no interval; a tick adds 1 while running and nothing while stopped |
| `EffectExamples.Rerun` | src/pages/UseEffectExamples.tsx:60-74 | cleanup clears the old interval; the new effect starts interval `handle` exactly when running; keeps the invariant for a positive handle |
| `EffectExamples.StartPause` | src/pages/UseEffectExamples.tsx:192 | flips `isTimerRunning`, keeps `timer`, and keeps the invariant |
| `EffectExamples.ResetTimer` | src/pages/UseEffectExamples.tsx:195-198 | stops the timer and zeroes it, leaving no interval; a stopped timer is only zeroed |
| `EffectExamples.Tick` | src/pages/UseEffectExamples.tsx:64-66 | a tick adds 1 exactly when its interval is live, which under the invariant means the timer runs and it is the effect's interval |
| `EffectExamples.TimerRunInv` | src/pages/UseEffectExamples.tsx:60-74 | over any history, an interval exists exactly while `isTimerRunning` holds, and it is the one the current effect created |
| `EffectExamples.EffectTimer.constructor` | src/pages/UseEffectExamples.tsx:57-58 | `timer` 0 and `isTimerRunning` false, so no interval |
| `EffectExamples.EffectTimer.RunEffect` | src/pages/UseEffectExamples.tsx:60-74 | the old effect's cleanup clears its interval, and the new effect creates one only if the timer runs |
| `EffectExamples.EffectTimer.StartPauseClick` | src/pages/UseEffectExamples.tsx:192 | flips `isTimerRunning` and re-runs the effect; keeps the invariant |
| `EffectExamples.EffectTimer.ResetClick` | src/pages/UseEffectExamples.tsx:195-198 | sets `isTimerRunning` false and `timer` 0, re-running the effect only if the timer was running |
| `EffectExamples.EffectTimer.Fire` | src/pages/UseEffectExamples.tsx:64-66 | each tick adds 1 to `timer` |
| `LayoutEffectExamples.Columns` | src/pages/UseLayoutEffectsExamples.tsx:22-27 | `max(1, ⌊w / 200⌋)`: at least 1, and the largest count whose 200-pixel columns fit (1 when none fit) |
| `LayoutEffectExamples.ColumnsMonotone` | src/pages/UseLayoutEffectsExamples.tsx:25 | the column count never decreases as the width grows |
| `LayoutEffectExamples.ColumnsCard.constructor` | src/pages/UseLayoutEffectsExamples.tsx:19 | `columns` starts at 1 |
| `LayoutEffectExamples.ColumnsCard.CalculateColumns` | src/pages/UseLayoutEffectsExamples.tsx:21-32 | on mount and on each resize, `columns` becomes the count for the container's width, which is ≥ 1 |
| `LayoutEffectExamples.AddItem` | src/pages/UseLayoutEffectsExamples.tsx:158 | Add Item lengthens the list by one, keeps the existing items as a prefix, and keeps "item k is `Item k+1`" |
| `LayoutEffectExamples.ItemLabel` | src/pages/UseLayoutEffectsExamples.tsx:158 | "Item " followed by digits that read back as `n` |
| `LayoutEffectExamples.InitialNumbered` | src/pages/UseLayoutEffectsExamples.tsx:36 | the initial items Item 1..3 satisfy "item k is `Item k+1`" |
| `LayoutEffectExamples.AddItems` | src/pages/UseLayoutEffectsExamples.tsx:158 | n clicks add n items and keep the numbering |
| `LayoutEffectExamples.ItemsAfterClicks` | src/pages/UseLayoutEffectsExamples.tsx:36-158 | after n clicks the list is exactly Item 1..Item (3+n) |
| `LayoutEffectExamples.NumberedDistinct` | src/pages/UseLayoutEffectsExamples.tsx:158 | numbered labels are pairwise distinct |
| `LayoutEffectExamples.CorrectedTop` | src/pages/UseLayoutEffectsExamples.tsx:40-45 | the correction `oldTop + (newHeight − oldHeight)` keeps the distance from the bottom of the content |
| `LayoutEffectExamples.ScrollList.constructor` | src/pages/UseLayoutEffectsExamples.tsx:35-41 | the list starts as Item 1..3 and the mount effect captures scroll top 0 and the initial height |
| `LayoutEffectExamples.ScrollList.UserScroll` | src/pages/UseLayoutEffectsExamples.tsx:162-171 | a user scroll moves `scrollTop` and touches neither the items nor the captured measurements |
| `LayoutEffectExamples.ScrollList.AddItemClick` | src/pages/UseLayoutEffectsExamples.tsx:38-49 | appends the next label, and the cleanup sets `scrollTop := capturedTop + (newHeight − capturedHeight)`; the new effect captures the result |
| `LayoutEffectExamples.ExpandCard.constructor` | src/pages/UseLayoutEffectsExamples.tsx:6 | the box starts collapsed, 150×100 |
| `LayoutEffectExamples.ExpandCard.Toggle` | src/pages/UseLayoutEffectsExamples.tsx:71-79 | flips `isExpanded`; the box becomes 300×200 when expanded and 150×100 when collapsed, keeping size and state in step |
| `Fetch.InitialResult` | src/hooks/useFetch.ts:10-12 | the initial record is `{data: null, loading: true, error: null}` |
| `Fetch.Caught` | src/hooks/useFetch.ts:24 | a thrown Error is stored as it is; any other thrown value becomes `Error("An unknown error occurred")` |
| `Fetch.IsOk` | src/hooks/useFetch.ts:18 | `response.ok`: the status is in the 2xx class |
| `Fetch.HttpError` | src/hooks/useFetch.ts:19 | the message is "HTTP error! status: " followed by digits |
| `Fetch.Attempt` | src/hooks/useFetch.ts:16-22 | the try block succeeds exactly on an ok status with a parsed body, giving that value; a rejection, a non-ok status (its HTTP error) or a bad body is the value thrown |
| `Fetch.Settle` | src/hooks/useFetch.ts:15-28 | every settlement ends `loading`; success stores the parsed value and keeps `error`; failure keeps `data` and stores the caught error |
| `Fetch.SettleOk` | src/hooks/useFetch.ts:18-26 | an ok response with a parsed body sets `data` and `loading` false, and keeps an earlier error |
| `Fetch.SettleNotOk` | src/hooks/useFetch.ts:18-26 | a status outside 200-299 stores "HTTP error! status: <status>", keeps `data`, sets `loading` false |
| `Fetch.SettleThrown` | src/hooks/useFetch.ts:17-26 | a rejection, or a body that fails to parse, stores the caught error and keeps `data` |
| `Fetch.FirstSettlement` | src/hooks/useFetch.ts:10-28 | from the initial record: success gives `{parsed, false, null}`, a bad status `{null, false, error}` |
| `Fetch.LastSettledWins` | src/hooks/useFetch.ts:14-37 | with no cancellation the last retrieval to settle decides `data`, and a later success does not clear an earlier error |
| `Fetch.HttpErrorMessage` | src/hooks/useFetch.ts:19 | the message is "HTTP error! status: " followed by the status in decimal, which reads back as the status |
| `Fetch.FetchHook.constructor` | src/hooks/useFetch.ts:9-30 | mount gives the initial record and starts the first retrieval |
| `Fetch.FetchHook.Render` | src/hooks/useFetch.ts:14-37 | a new url starts one more retrieval; the record is unchanged (`loading` is not set back to true) |
| `Fetch.FetchHook.SettleRetrieval` | src/hooks/useFetch.ts:15-28 | any outstanding retrieval settles through try/catch/finally as `Settle` says, leaving `loading` false |

## Left out

- Network and JSON: `fetch` and `response.json()` in src/hooks/useFetch.ts and
  src/pages/UseEffectExamples.tsx are I/O. They are modelled by the outcome they produce,
  and the user record parsed by the useEffect page is a pair of strings (a missing JSON
  field, `undefined` in JavaScript, is not modelled).
- Real-time scheduling: `setInterval` timing is a tick event. The interleaving of
  overlapping retrievals is covered only as "any outstanding retrieval may settle next".
- DOM measurement of the expandable box (`getBoundingClientRect`, `toFixed`) and of the
  commented-out measurement card in src/pages/UseRefExamples.tsx are float-valued browser
  data. That card is dead code. The `[inputValue]` effect that measures it finds no
  element and writes nothing, so its `textDimensions` cell is left out; `inputValue`
  itself is modelled.
- JavaScript numbers are doubles. `count`, `timer`, `userId` and the `Date.now()` ids are
  exact only below 2^53, and the model's unbounded `int` does not round above that.
- ContextExamples.LoginForm.EditEmail: the email input's value sanitisation (dropping line
  breaks and surrounding whitespace) is not modelled; the value is stored as typed.
- The browser clamps `scrollTop` to the scrollable range. The model stores the value the
  correction assigns.
- Input focus (`inputRef.current?.focus()`), `console.error`, and adding and removing event
  listeners are calls into the browser that change none of the modelled state.
- Handlers read state cells through the closure of the latest render (`setIsOpen(!isOpen)`).
  Every event is modelled as followed by its re-render, so two events between renders are
  not modelled.
- JavaScript strings are UTF-16 code-unit sequences. Here they are sequences of Unicode
  scalar values, with no difference for the operations modelled.
- The card component, the page shell, the route table and the home page
  (src/components/HookCard.tsx, src/components/Layout.tsx, src/App.tsx,
  src/pages/Home/Home.tsx) are markup with no state. The code samples shown on each card
  are display text.
