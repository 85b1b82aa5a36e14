# ResponsiveObserve in Dafny

A verified model of the breakpoint dispatcher of Ant Design's
`components/_util/responsiveObserve.ts`. The dispatcher knows six screen-size
breakpoints (`xs` … `xxl`) and the media query of each. It keeps the last-known
"screens" state (which breakpoints match) and a list of subscribers. On the first
subscription it registers every query with the media-query watcher (enquire.js).
When the watcher reports that a query starts or stops matching, it merges that one
breakpoint into the state and hands the new state to every subscriber, the most
recently subscribed first. When the last subscriber leaves, it unregisters every
query.

Files:

- `tokens.dfy`, module `Tokens`: the subscription token `(++subUid).toString()`.
  It holds the decimal numeral of a counter value, its parser, the round trip
  between them, and the proof that distinct counter values give distinct tokens.
- `responsive_observe.dfy`, module `ResponsiveObserve`: the breakpoint type, the
  two key orders, the query table, and the pure pieces. These are the
  spread-merge of one breakpoint, the fan-out order of a dispatch, the `filter` of
  `unsubscribe`, and the watcher calls of `register`/`unregister`. It also holds
  the class `Observer`, the dispatcher itself, whose fields the methods update in
  place.
- `scenario.dfy`, module `Scenario`: a client that runs a two-subscriber session
  against the contracts of `Observer` alone.

How the environment is represented:

- The watcher is a log, `Observer.watcherLog`, of `RegisterQuery(q)` and
  `UnregisterQuery(q)` calls. `WatchedBy(log)` gives the queries whose last call
  in a log is a registration, and `Observer.Watched()` applies it to the log.
  `Observer.Valid()` keeps the invariant "the queries are registered exactly
  when the subscriber list is non-empty", stated over the calls actually made.
- Subscriber callbacks are observers identified by a `Callback` number. Every
  invocation is appended to `Observer.deliveries` as `Delivery(entry, screens)`.
- The watcher's `match`/`unmatch` handlers for breakpoint `b` are the methods
  `Observer.Match(b)` and `Observer.Unmatch(b)`. The environment may call them.
- A subscriber entry stores the counter value `uid`. Its token is
  `DecimalString(uid)`, and `Unsubscribe` accepts any string.

The model follows the code in these details: `unsubscribe` calls `unregister`
whenever the list is empty afterwards, also when it was already empty. `subscribe` registers whenever the
list is empty, also after earlier subscribers have all left. `register` and
`unregister` walk the table in its key order (`xs`, `sm`, `md`, `lg`, `xl`,
`xxl`). The exported `responsiveArray` lists the breakpoints in the reverse order.

## Model

| member | source | states |
|---|---|---|
| `Tokens.DecimalString` | components/_util/responsiveObserve.ts:60 | the token of a non-negative counter is a non-empty string of decimal digits, with a leading zero only for the counter value 0 |
| `Tokens.ParseDecimalString` | components/_util/responsiveObserve.ts:60 | reading a token back as a decimal number gives the counter value it was made from |
| `Tokens.DecimalStringInjective` | components/_util/responsiveObserve.ts:39-60 | two counter values give the same token if and only if they are equal, so tokens are never reused |
| `ResponsiveObserve.BreakpointTables` | components/_util/responsiveObserve.ts:18-30 | both key orders list each of the six breakpoints exactly once; `responsiveArray` is the table's key order reversed; no two breakpoints share a query |
| `ResponsiveObserve.SetScreen` | components/_util/responsiveObserve.ts:82-94 | the handlers' merge sets breakpoint `b` to the given value, keeps every other known breakpoint's value, and adds no other key |
| `ResponsiveObserve.FanOut` | components/_util/responsiveObserve.ts:49-53 | one dispatch makes one invocation per subscriber, each with the dispatched state |
| `ResponsiveObserve.FanOutAt` | components/_util/responsiveObserve.ts:49-53 | the k-th invocation of a dispatch goes to the k-th subscriber counted from the most recent one |
| `ResponsiveObserve.FanOutExactlyOnce` | components/_util/responsiveObserve.ts:49-53 | when entries are distinct, each subscriber is invoked exactly once, at the position that reverses subscription order |
| `ResponsiveObserve.RemoveToken` | components/_util/responsiveObserve.ts:69 | the filtered list is no longer than the input, and every entry left is from the input and does not hold the token |
| `ResponsiveObserve.RemoveTokenKeeps` | components/_util/responsiveObserve.ts:69 | every entry that does not hold the token survives the filter |
| `ResponsiveObserve.RemoveTokenIncreasing` | components/_util/responsiveObserve.ts:69 | the filter keeps the list in subscription order (increasing counter values) |
| `ResponsiveObserve.RemoveTokenAppend` | components/_util/responsiveObserve.ts:69 | the filter acts element by element over concatenation, so survivors keep their relative order |
| `ResponsiveObserve.RemoveAbsentToken` | components/_util/responsiveObserve.ts:69 | an unknown token leaves the list unchanged |
| `ResponsiveObserve.RemoveHeldToken` | components/_util/responsiveObserve.ts:60-69 | a token that a subscriber holds removes exactly one entry, because issued tokens are distinct |
| `ResponsiveObserve.Registrations` | components/_util/responsiveObserve.ts:80-81 | registering the table makes one watcher call per key |
| `ResponsiveObserve.Unregistrations` | components/_util/responsiveObserve.ts:75-76 | unregistering the table makes one watcher call per key |
| `ResponsiveObserve.RegistrationsAt` | components/_util/responsiveObserve.ts:80-81 | the k-th register call is for the query of the k-th key |
| `ResponsiveObserve.UnregistrationsAt` | components/_util/responsiveObserve.ts:75-76 | the k-th unregister call is for the query of the k-th key |
| `ResponsiveObserve.WatcherCallsCover` | components/_util/responsiveObserve.ts:74-100 | `register` and `unregister` each act on every breakpoint's query exactly once, at that key's position in the table |
| `ResponsiveObserve.Observer.constructor` | components/_util/responsiveObserve.ts:34-41 | starts with no subscribers, counter -1, empty screens, nothing registered and nothing delivered |
| `ResponsiveObserve.Observer.Dispatch` | components/_util/responsiveObserve.ts:42-55 | stores the new state; returns true exactly when there is a subscriber; invokes the subscribers in reverse subscription order (none when the list is empty); leaves the list unchanged |
| `ResponsiveObserve.Observer.Register` | components/_util/responsiveObserve.ts:79-100 | appends one register call per key, in key order, and the watcher then watches every query |
| `ResponsiveObserve.Observer.Unregister` | components/_util/responsiveObserve.ts:74-78 | appends one unregister call per key, in key order; because `destroy` is empty, neither the screens nor any subscriber is touched |
| `ResponsiveObserve.Observer.Subscribe` | components/_util/responsiveObserve.ts:56-67 | registers exactly when the list was empty; issues the token of the incremented counter, never issued before; appends one entry; invokes only the new callback, once, with the current screens; the queries are registered afterwards |
| `ResponsiveObserve.Observer.Unsubscribe` | components/_util/responsiveObserve.ts:68-73 | the list becomes the filtered list; unregisters exactly when it is empty afterwards; keeps "registered if and only if non-empty" |
| `ResponsiveObserve.Observer.Match` | components/_util/responsiveObserve.ts:82-88 | dispatches the current screens with only `b` set to true |
| `ResponsiveObserve.Observer.Unmatch` | components/_util/responsiveObserve.ts:89-95 | dispatches the current screens with only `b` set to false |
| `Scenario.TwoSubscribers` | components/_util/responsiveObserve.ts:42-95 | a session of subscribe A, match md, subscribe B, unmatch md, unsubscribe both yields tokens "0" and "1". B gets md before A, registration happens once, and unregistration happens once at the end |

## Left out

- The `matchMedia` polyfill and the `typeof window` guard (lines 1-16). They are browser-environment plumbing.
- The internals of enquire.js. The model keeps only the calls made into it and the set of queries it watches. Real media-query evaluation is not modelled, and the query strings are opaque constants.
- The watcher can fire `match` synchronously from inside `register`, before `subscribe` pushes the new entry. `Subscribe` performs register, push and replay as one step, so such an early dispatch (to an empty list) is not represented. `Match` and `Unmatch` may still be called at any time, including with no subscribers.
- Re-entrancy: a callback that calls `subscribe` or `unsubscribe` while a dispatch is running. Callbacks are pure observers recorded in `deliveries`.
- The singleton export (lines 104-105) and JavaScript `this` binding. `Observer` is one explicit instance.
- The `subscribers ? subscribers.length : 0` guard (line 49). The list is always an array, so the model reads its length directly.
- Tokens.DecimalString: tokens are modelled over unbounded naturals. JavaScript numbers lose integer precision above 2^53, and `toString` switches to exponent notation from 1e21; neither is modelled.
