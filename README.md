# Background coordinator of the Jancy example preloader plugin

This project is a Dafny model of `BackgroundAPI`, the coordinator that the example
preloader plugin runs in the host's main process. It keeps a click count and a list
of listener pages:

- On construction it loads the count from the host's key-value store, under
  namespace `"example"` and key `"count"`.
- On every `example-update` message it adds one to the count, writes the count back
  as JSON text, and sends it to every registered page. A page whose send fails is
  dropped from the list during that same pass.
- On every `example-register-page` request it appends the caller's webContents id
  to the list and answers with the current count.

The model has five modules:

- `Wrappers` holds `Option` and `Result`.
- `JsonNumber` holds `Stringify` and `Parse`. They model what `JSON.stringify` writes
  and `JSON.parse` reads for a non-negative integer: the `int` production of the
  number grammar in section 6 of RFC 8259. That is a run of decimal digits with no
  leading zero.
- `Storage` holds the store, a map from a (namespace, key) pair to a string, and
  `LoadCount`, the count a construction starts from.
- `Listeners` holds the specification of one broadcast round:
  - `Attempts` is the sends the round makes.
  - `Live` is the order-preserving filter of the list to the listeners whose send
    succeeded.
  - `Failures` counts the failed sends.
- `Background` holds the class `BackgroundApi`. Its fields are `count`, `listeners`
  and `store`. Its methods are the constructor, `Update`, `Register` and `Destroy`.

The IPC `sendTo` call is a parameter of `Update`: a function from a listener and a
count to the boolean that `sendTo` returns. The class invariant `Valid()` says that
the count in memory is exactly what a fresh construction against the current store
would load. The constructor establishes it, and `Update` and `Register` keep it.

The `example-update` handler does its broadcast in a loop. That loop is modelled as a
separate method, `Broadcast`. It keeps the source's in-place `splice` and the index
step-back (`--ldx`). It is proved to try each listener present at the start exactly
once, in list order, and to leave exactly `Live` of the old list.

Two client methods replay sessions against an empty store:

- `ExampleSession` registers two pages, then closes one. The next click reaches only
  the other page.
- `DuplicateRegistration` registers one page twice. The next click is sent to it
  twice.

Two points of the code shape the model:

- **Unreadable stored value.** The constructor passes a truthy stored value to
  `JSON.parse` (example-preloader/src/index.js:216-217) without a try/catch, so a
  stored value that `JSON.parse` cannot parse makes construction throw. `Open`
  returns `Err` in that case.
- **Teardown.** `destroy` (example-preloader/src/index.js:281-283) has an empty body.
  Its TODO at line 282 says the channel listeners should be removed, but nothing
  removes them. `Destroy` therefore changes nothing, and `Update` and `Register` stay
  callable after it.

## Model

| member | source | states |
|---|---|---|
| `Background.BackgroundApi.constructor` | example-preloader/src/index.js:201-218 | the listener list starts empty; the count is what is stored under ("example", "count"), and it is 0 when that value is absent or the empty string; the in-memory count equals the persisted one (`Valid`) |
| `Background.Open` | example-preloader/src/index.js:211-218 | construction succeeds exactly when the stored value is absent, empty, or a canonical digit string, and then starts from that count with an empty list; otherwise it fails with the stored text. For text `JSON.parse` throws on, this is the source's uncaught exception; for other text it is narrower than the source (see Left out) |
| `Background.BackgroundApi.Update` | example-preloader/src/index.js:235-262 | the count goes up by exactly 1; the store afterwards is the old store with ("example", "count") set to the new count's JSON text, and nothing else changed; a fresh load of that store gives the new count; the sends are exactly `Attempts` of the old list with the new count; the list left is `Live` of the old list |
| `Background.BackgroundApi.Broadcast` | example-preloader/src/index.js:254-260 | the loop with in-place splice and index step-back makes one send per listener present at the start, in list order, each carrying the count; the list afterwards is the order-preserving filter of the old list to the listeners whose send succeeded; count and store are untouched |
| `Background.BackgroundApi.Register` | example-preloader/src/index.js:271-278 | the id is appended at the end of the list even when it is already present, and earlier entries are unchanged; the reply is the current count; count and store are unchanged |
| `Background.BackgroundApi.Destroy` | example-preloader/src/index.js:281-283 | no field of the coordinator changes |
| `Storage.LoadCount` | example-preloader/src/index.js:211-218 | an absent or empty stored value loads as 0; a non-empty one loads exactly when it is a canonical digit string, and its value is then the count whose JSON text is that string; otherwise the error carries the stored text |
| `Storage.PersistRoundTrip` | example-preloader/src/index.js:245-249 | after the count is written with `setItem`, loading from the resulting store gives back that count |
| `JsonNumber.Stringify` | example-preloader/src/index.js:248 | the JSON text of a count is a non-empty digit string with no leading zero, and it starts with '0' exactly when the count is 0 |
| `JsonNumber.ParseStringify` | example-preloader/src/index.js:217 | parsing the JSON text of any count gives back that count |
| `JsonNumber.StringifyParse` | example-preloader/src/index.js:217 | every text that parses as a count is the JSON text of its value, so each count has exactly one stored form |
| `Listeners.AttemptsAt` | example-preloader/src/index.js:254-255 | a round makes as many sends as there are listeners, and send `i` goes to the listener at index `i` with the round's count |
| `Listeners.PruneStep` | example-preloader/src/index.js:255-258 | before listener `k` is tried, it sits right after the survivors so far; keeping it, or splicing it out and stepping the index back, leaves the survivors of the first `k + 1` listeners followed by the untried rest, so no listener is skipped or tried twice |
| `Listeners.LiveLength` | example-preloader/src/index.js:254-260 | a round shrinks the list by exactly the number of failed sends |
| `Listeners.LiveMembers` | example-preloader/src/index.js:254-260 | a listener is in the list after a round exactly when it was in it before and its send succeeded; so every copy of a dead listener is gone, and every remaining listener received this round's count |
| `Listeners.LiveAppend` | example-preloader/src/index.js:254-260 | the filtering distributes over concatenation, so survivors keep their registration order |
| `Listeners.LiveAllAlive` | example-preloader/src/index.js:254-260 | when every send succeeds the list is unchanged and no send failed |

## Left out

- Plugin lifecycle and registration with the host (`jancy_onInit`, `jancy_onEnabled`, `jancy_onDisabled` and the preloader and page registries): these are calls into the host with no logic of their own.
- `myPreloaderFunction` and the page script `example-preloader/page/index.js`: they build and inject markup, style and script into a page, and update its DOM. That is UI and script injection, not state this model can express.
- The IPC transport: the subscriptions made with `ipc.on` and `ipc.handle`, message delivery and the event arguments. The two handlers are methods. `sendTo` is the caller-supplied `send` function, so the model decides liveness once per (listener, count) pair, and two copies of one listener in a round get the same answer.
- The `console.log` calls in the handlers.
- Other writers to the store: the store is a field of the coordinator, so writes to ("example", "count") by anything else are not modelled.
- Storage.LoadCount: accepts only a canonical digit string as a stored count. `JSON.parse` also reads some non-canonical text as a non-negative integer: `" 5"`, `"5 "` and `"5.0"` give 5, and `"1e2"` gives 100. For such text the source constructs with that count, but `LoadCount` returns `Err`. Text that `JSON.parse` reads as something other than a non-negative integer (`"-1"`, `"1.5"`, `"true"`) also becomes `Err`. For that text the source would go on with a count that is not a non-negative integer, which this model does not represent.
- Background.Open: returns `Err` for every stored value that `LoadCount` rejects, and the constructor requires `LoadCount(store).Ok?`. So for non-canonical text that `JSON.parse` reads as a non-negative integer (`" 5"`, `"5.0"`, `"1e2"`), construction fails in the model but succeeds in the source. For text `JSON.parse` throws on, the model's failure matches the source.
- Background.BackgroundApi.Update: the count is an unbounded natural number. The source's count is a JavaScript number, which loses precision above 2^53, and `JSON.stringify` switches to exponent notation at 10^21. Neither is modelled.
- Concurrency: the host is assumed to run the handlers one at a time, each to completion.
