# URL-state synchronizers, modelled in Dafny

This project models the two history-bound hooks of a small React utility
library:

- `useUrlState` keeps a record state in step with the URL query string.
- `useUrlToggle` does the same for one boolean flag.

Both hooks own a "last applied value" cell and write to a navigable history
stack. They also listen to that stack for back/forward navigation.

## Structure

- `Values.dfy`: scalar values (`Str`, `Num`, `Bool`, `Null`) and flat records.
  It also holds the parsed query (`map<string, string>`) and `Render`. `Render`
  gives the string a scalar becomes once it is written to the query string
  and read back.
- `Navigation.dfy`: a `Location` is a pathname, a parsed query and a hash.
  Entries carry a payload (`HistoryState`). The `History` class is an
  in-memory stack with a current index and a log of the calls made on it:
  - `Push` drops the forward entries and appends.
  - `Replace` overwrites the current entry.
  - `GoBack` moves the index back.
  The current entry stands for `window.location`.
- `UrlState.dfy` (module `UseUrlState`): `newPath` and the atomic/non-atomic
  classification as functions, and the class `UrlState`.
  - Its fields are the observable `state`, `previousStateRef` and a focus
    request counter.
  - Its methods are the constructor (mount), the history listener
    (`OnNavigate`), `SetStateWithHistory` and `SetStateWithCallback`.
- `UrlToggle.dfy` (module `UseUrlToggle`): `Decode`, `NewQuery`/`NewPath`,
  and the class `UrlToggle`.
  - Its fields are `precondition`, `state`, `currentStateRef` and
    `navigatedWithHook`.
  - Its methods are the constructor (initial state plus the mount-time
    replace), `SetPrecondition` (a re-render), the listener and
    `SetStateWithHistory`.
- `Scenarios.dfy`: end-to-end runs over a fresh history, each stated for all
  inputs. They cover:
  - toggle collapse
  - the precondition lock
  - key isolation
  - atomicity routing, with the focus move of an atomic `setState`
  - focus on external navigation

The caller's `decode` is a function parameter of type `Query -> Record`. A
hook's listener is a method that receives the navigation event (location and
payload). Focus is a counter that the listener raises.

Behaviours of the code worth noting:
- The history port calls its listeners synchronously inside `push` and
  `replace`, before `setState` updates its ref. An object-hook `setState`
  therefore runs its own listener on the entry it just wrote, while the ref
  still holds the old state. That echo is what requests focus after a change
  confined to atomic fields. The model calls the listener at that point.
- For the toggle, the echo of its own push adopts the value just pushed and
  makes no history call. The event that follows `goBack` arrives later, and
  the caller delivers it.
- The object listener requests focus exactly when the `nonAtomic`
  projections of the old and the new state are equal.
- The toggle listener does not stop on a payload that carries another key.
  It decodes the value from the URL instead.
- Only `precondition === false` locks the toggle, so an undefined
  precondition leaves it free.

## Model

| member | source | states |
|---|---|---|
| UseUrlState.NewQuery | useUrlState/useUrlState.ts:15-24 | Every state field equal to its initial value is left out of the query. Every other state field is written as its rendered value. An existing query parameter that the state does not override is kept unless it equals the initial value. No other key appears. |
| UseUrlState.EqualIffPartsEqual | useUrlState/useUrlState.ts:104-109 | Two states are equal exactly when their `nonAtomic` projections and their remaining parts are both equal. This makes the two lodash comparisons a complete split of `isEqual`. |
| UseUrlState.AnyAtomicIffFieldDiffers | useUrlState/useUrlState.ts:123-127 | `anyAtomic` holds exactly when some field outside `nonAtomic` is added, removed or changed. |
| UseUrlState.SamePickIffNoFieldDiffers | useUrlState/useUrlState.ts:106-110 | The `nonAtomic` projections are equal (focus is requested) exactly when no `nonAtomic` field is added, removed or changed. |
| UseUrlState.ReplaceOnlyForNonAtomicChange | useUrlState/useUrlState.ts:121-139 | A change that takes the replace branch touches only `nonAtomic` fields, and at least one of them. An atomic edit is never replaced away. |
| UseUrlState.UrlState.constructor | useUrlState/useUrlState.ts:52-75 | At mount, the state and the ref equal the initial state overridden by `decode` of the current query. The key defaults to the current pathname. No focus has been requested. |
| UseUrlState.UrlState.Candidate | useUrlState/useUrlState.ts:80-101 | An event is dropped (None) exactly when its payload has a truthy key that differs from this instance's key. A matching payload's `newState` is used when it has one. Otherwise the candidate is `initialState` overridden by `decode(search)`. |
| UseUrlState.UrlState.OnNavigate | useUrlState/useUrlState.ts:79-115 | A foreign event, or a candidate equal to the ref, changes nothing and requests no focus. Otherwise the ref and the state become the candidate, and focus is requested once exactly when the `nonAtomic` projections are equal. |
| UseUrlState.UrlState.SetStateWithHistory | useUrlState/useUrlState.ts:119-145 | For a state equal to the ref, history, ref, state and focus are untouched. Otherwise exactly one call is made: a push if an atomic field changed, else a replace. The call carries the `newPath` URL and the payload `{key, newState}`. The stack moves accordingly. The call's synchronous listener echo is compared with the old ref. With a truthy key, focus is requested once exactly when the `nonAtomic` projections of the old and new state agree. With key "" the echo decodes the new URL over the initial state instead. The ref and the state end as `newState`. |
| UseUrlState.UrlState.SetStateWithCallback | useUrlState/useUrlState.ts:147-155 | An updater is applied once to the ref's value from before the call. The result then goes through exactly the `setStateWithHistory` effect above, focus request included. |
| UseUrlState.Resolve | useUrlState/useUrlState.ts:149-151 | A given state is used as it is. An updater is applied to the previous state. |
| UseUrlState.AnyAtomic | useUrlState/useUrlState.ts:124-127 | An atomic change is a change. With no `nonAtomic` fields (the default empty list) every change is atomic, so it pushes. |
| UseUrlState.NewPath | useUrlState/useUrlState.ts:15-24 | The pathname and the hash are kept. No state field equal to its initial value appears in the query. Every state field that does appear holds its rendered value. |
| UseUrlToggle.NewQuery | useUrlToggle/useUrlToggle.ts:13-22 | The flag key is present exactly when the new value differs from the initial value, and then holds "true" or "false". Every other query parameter is kept unchanged, and nothing is added. |
| UseUrlToggle.Decode | useUrlToggle/useUrlToggle.ts:8-11 | An absent URL value gives `initialValue`. A present one gives true exactly when it is the string "true". |
| UseUrlToggle.NewPath | useUrlToggle/useUrlToggle.ts:13-22 | The pathname and the hash are kept. The flag decodes back to the new value. Every other query parameter is kept unchanged. |
| UseUrlToggle.UrlToggle.Rejects | useUrlToggle/useUrlToggle.ts:112-114 | Unless the precondition is `false`, only setting the current value is rejected. Under the lock, any value other than `initialValue` is rejected, and so is `initialValue` when it is already current. |
| UseUrlToggle.DecodeNewQuery | useUrlToggle/useUrlToggle.ts:8-22 | `decode`, applied to the URL `newPath` wrote, gives back the value that was written (round trip). |
| UseUrlToggle.UrlToggle.constructor | useUrlToggle/useUrlToggle.ts:41-74 | The mount URL value is decoded once. A locked mount starts at `initialValue`, otherwise at the URL value. Exactly one replace to `initialValue` (payload `{key: name, newValue}`) happens when locked and the URL value differs. Otherwise history is untouched. `navigatedWithHook` starts false. |
| UseUrlToggle.UrlToggle.SetPrecondition | useUrlToggle/useUrlToggle.ts:53-54 | Each render stores the latest precondition and changes nothing else. |
| UseUrlToggle.UrlToggle.ObservedValue | useUrlToggle/useUrlToggle.ts:79-96 | A payload tagged with this name and carrying a value supplies it. Any other payload, including one with a foreign key, falls back to decoding the URL. |
| UseUrlToggle.UrlToggle.OnNavigate | useUrlToggle/useUrlToggle.ts:76-107 | A locked instance that observes a value other than `initialValue` calls goBack once and keeps its state. Otherwise it adopts the observed value with no equality check and no history call. A locked instance that shows `initialValue` keeps showing it. |
| UseUrlToggle.UrlToggle.SetStateWithHistory | useUrlToggle/useUrlToggle.ts:109-129 | A value the lock forbids, or the current value, leads to no call and no change. Returning to `initialValue` after this instance pushed calls goBack only. Any other accepted value makes exactly one push of the `newPath` URL with payload `{key: name, newValue}`. That push's synchronous listener echo adopts the pushed value and calls nothing. After an accepted call the ref and the state equal the new value and `navigatedWithHook` is true. The flag is never reset. |
| Scenarios.ToggleCollapse | useUrlToggle/useUrlToggle.ts:110-129 | Starting from a URL without "true", on then off gives exactly one push followed by one goBack. The run ends on the starting entry with the value false, and the listener's echo of that entry keeps it false. |
| Scenarios.PreconditionLock | useUrlToggle/useUrlToggle.ts:56-113 | With the lock on and `initialValue` false, the mount replaces only when the URL says "true". `setState(true)` makes no call and leaves false. A forward event carrying "true" is answered by goBack, and the value stays false. |
| Scenarios.KeyIsolation | useUrlState/useUrlState.ts:82-92 | An event tagged with another instance's truthy key leaves the state and the focus count unchanged. |
| Scenarios.QueryEditReplaces | useUrlState/useUrlState.ts:104-139 | With `nonAtomic = {"query"}` and a truthy key, changing only "query" makes one replace and requests no focus. |
| Scenarios.SelectionPushesAndFocuses | useUrlState/useUrlState.ts:104-139 | With `nonAtomic = {"query"}` and a truthy key, changing another field makes one push, and its listener echo requests focus once. |
| Scenarios.ExternalNavigationFocus | useUrlState/useUrlState.ts:104-110 | An external event with a new state requests focus once exactly when no `nonAtomic` field changed, and none otherwise. |

## Left out

- React machinery (`useState`, `useEffect`, `useCallback`, `useRef`, re-render timing) is not modelled. The observable state and the ref are class fields written together. `Valid()` keeps them equal.
- Subscribing the listener and unsubscribing it on unmount are not modelled. The listener is a method called with the event. A hook's own `push` or `replace` runs that hook's own listener. The listeners of other mounted instances, and the later event a `goBack` causes, are delivered by a caller passing the entry to the listener.
- The toggle listener reads `window.location.search`. The model reads the location of the event, which is the same current entry in a browser.
- `qs.stringify` and `qs.parse` are modelled only for flat scalar maps. Writing then reading back gives `Render` of each value. Percent-encoding, arrays, nested objects and the raw search string are not modelled, and neither is the thin `getSearchParams` wrapper.
- Values are scalars. Numbers are integers (JavaScript floats are not modelled), and arrays and objects are left out. Because of this, lodash `isEqual`, `pick` and `omit` become map equality and restriction. lodash `merge` at mount and the spread in the listener both become a right-biased map override. They would differ only on `undefined` fields, which the model does not have.
- UseUrlState.UrlState.SetStateWithCallback: updaters are pure functions of a record value. An updater that changes the ref's object in place and returns it makes the source see equal states and navigate nowhere, even though the ref has changed. The model does not capture that in-place change or the aliasing behind it.
- The lazy form of `initialStateBase` (a function) is not modelled: the constructor receives the initial state itself.
- `useFocus` (DOM focus, `tabIndex`, scrolling) is not part of this model. A focus request is an increment of `focusRequests`.
- `History.GoBack` at the first entry leaves the in-app stack where it is. A browser would leave the application, which is outside this model.
- The round-trip property for the object hook (decoding the written query over the initial state gives the state back) depends on the caller's `decode` and is not stated. `UseUrlState.NewQuery` states what is written for each field.
- `useLocalStorage`, `BaseButton`, `BaseInput`, `focusRing` and `types` are not part of this model. They have no history interaction.
