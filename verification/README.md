# reloadable-config, modelled in Dafny

The repository is a single class, `Config` (index.js), exported as a
process-wide instance. It keeps two snapshots of a configuration file: a
static one filled on the first successful load, and a dynamic one replaced
on every reload. It also keeps a table of subscriptions. On each reload it
calls the handler of every subscription whose watched keys changed, or of
every subscription that watches `'*'`.

The model is split into four modules:

- `JsValues` (values.dfy): configuration values and JavaScript's string
  coercion `v + ''`. A reload uses that coercion to compare old and new
  values, so `1` and `"1"` count as equal. A missing key reads as
  `undefined`.
- `Snapshots` (snapshots.dfy): `Object.assign` on key/value maps. Also the
  two compositions of it that the class uses: the merge of defaults and
  source in `reload`, and the seeding of defaults in `setup`.
- `Subscriptions` (subscriptions.dfy): the `watch` filter, the fire/no-fire
  rule, and the calls a reload makes into user code. Also the registration
  order of the subscription table and what `delete` does to it.
- `ConfigManager` (config.dfy): the class `Config`. Its fields are
  `options`, `staticConfig`, `dynamicConfig`, the table `callbacks` with its
  enumeration `order`, `initialized`, the trigger state `timer` and
  `watching`, and `calls`, a log of every call made into user code. Its
  methods update these fields in place. The key-deleting loop and the
  notification loop are written as loops. The object invariant `Valid()`
  says two things. Every registered id is listed exactly once in `order`.
  Every default key is present in both snapshots.

`Scenario` (scenario.dfy) is a client of the class that uses only the
contracts of `Config`. It registers two subscriptions, one watching `a` and
one watching `b`. Then `setup` loads the source `{a: 1, b: 2}` with defaults
`{c: 3}`, and a reload reads the edited source `{a: 10, b: 2}`. The static
snapshot keeps the first load. The dynamic snapshot follows the edit. The
subscription watching `a` fires once, and the one watching `b` does not.

External inputs are parameters:
- The result of `require.resolve`/`require` is `source: Option<Snapshot>`.
  `None` means the file cannot be resolved.
- The id that `crypto.randomBytes` would generate is `generatedId`.
- User functions (handlers and hooks) are identities (`Handler`, `Hook`).
  Calling one appends a `Call` to `calls`.

Behaviours of index.js that the model states outright:

- A reload with no file configured always fails: `require.resolve(undefined)`
  throws at index.js:76. Before the first load that raises
  `Cannot load config file` (index.js:80).
- A reload that fails after the first load still raises. The failed
  `require.resolve` is only logged (index.js:77-81), but the `require` at
  index.js:84 then throws for the same file before index.js:86 clears
  anything. So the snapshots stay as they were, no handler is called, and
  `on_reload_end` is not called. Handlers are never called with
  defaults-only data after a failed read.
- `setup` seeds both snapshots from the merged `this._config.defaults`
  (index.js:35-36), not only from the defaults given in that call.
- `setup` can still add keys to the static snapshot after the first load:
  new default keys are seeded into it (existing values are never changed).
  Reloads never touch it after the first one.
- The first load writes the new configuration over the static snapshot
  (`Object.assign`, index.js:92) and does not replace it. Keys that earlier
  defaults seeded into it stay, even where the dynamic snapshot no longer
  has them.
- `watch` is not limited to `'*'` or a list of keys. Any other string is
  walked character by character (index.js:100), and the array `['*']` is
  not a wildcard.

## Model

| member | source | states |
|---|---|---|
| `JsValues.NumberStringsDistinct` | index.js:101 | two different numbers never have the same string form |
| `JsValues.NumbersCompareByValue` | index.js:101 | a watched key that holds a number before and after counts as changed exactly when the numbers differ |
| `JsValues.NumeralDoesNotCountAsChange` | index.js:101 | `1` replaced by `"1"` is a different value, but does not count as a change |
| `JsValues.MissingKeyReadsAsUndefined` | index.js:101 | a key absent from the old config compares as the string `"undefined"` |
| `JsValues.CoercionCollisions` | index.js:101 | values that print alike compare as equal: `[null]` and `""`, `[undefined, null]` and `","`, `true` and `"true"`, a plain object and `"[object Object]"`, `[1, "b"]` and `"1,b"`, `[]` and `""` |
| `JsValues.SingletonArrayPrintsItsItem` | index.js:101 | a one-item array prints as its item, with `undefined` and `null` items printing as the empty string |
| `Snapshots.Assign` | index.js:92-94 | `Object.assign`: the source's keys win, the target's other keys stay, and no other key appears |
| `Snapshots.Merge` | index.js:84 | the new config holds exactly the keys of the defaults and the source; the source wins, and the defaults fill in the rest |
| `Snapshots.SeedDefaults` | index.js:35-40 | seeding keeps every present key's value, adds each missing default key with its default value, and adds nothing else |
| `Snapshots.AssignOntoEmpty` | index.js:86-94 | assigning the new config onto the emptied dynamic snapshot makes it equal to the new config, with no stale key |
| `Snapshots.ReseedAfterMergeIsIdentity` | index.js:35-40 | seeding a loaded config with the defaults it was merged from changes nothing |
| `Snapshots.SeedIdempotent` | index.js:35-40 | seeding twice with the same defaults is the same as seeding once |
| `Subscriptions.Fires` | index.js:97-105 | the per-subscription walk, which stops at the first changed key, answers true exactly when the fire rule holds |
| `Subscriptions.FiredCallsShape` | index.js:96-107 | a reload makes at most one call per walked id; each call goes to a registered subscription that should fire, with its handler and `(newConfig, oldConfig)` |
| `Subscriptions.FiredCallsStep` | index.js:96-107 | walking one more subscription appends its call if it fires, and nothing otherwise |
| `Subscriptions.FiresOnceOrNever` | index.js:96-107 | when ids are distinct, each subscription's handler is called exactly once if it should fire, and not at all otherwise |
| `Subscriptions.StarAlwaysFires` | index.js:97-98 | a `'*'` subscription fires on every reload |
| `Subscriptions.UnchangedConfigFiresOnlyStar` | index.js:97-105 | when nothing changed, a subscription fires if and only if its watch is the string `'*'` |
| `Subscriptions.UnwatchedChangesIgnored` | index.js:100-105 | a subscription never fires for changes to keys it does not watch |
| `Subscriptions.TextWatchWalksCharacters` | index.js:100 | a watch string other than `'*'` fires exactly when one of its one-character keys changed |
| `Subscriptions.CallsToAroundHooks` | index.js:73-108 | the begin and end hooks of a reload are not handler calls: the reload adds to each subscription's count exactly the calls of its notification walk |
| `Subscriptions.Without` | index.js:137 | after `delete`, the order holds every id except the deleted one, and nothing else |
| `Subscriptions.WithoutAbsent` | index.js:137 | deleting an id that is not registered changes nothing |
| `Subscriptions.WithoutSplices` | index.js:137 | deleting a registered id removes exactly its slot; the other ids keep their relative order |
| `Subscriptions.WithoutKeepsDistinct` | index.js:137 | deleting keeps the registered ids distinct |
| `ConfigManager.Override` | index.js:33 | `Object.assign(this._config, config)`: each option the patch gives replaces the current one; each absent option keeps its value |
| `ConfigManager.NotifyAll` | index.js:96-107 | the notification loop returns exactly the calls of `FiredCalls` for the table in registration order |
| `ConfigManager.Config.constructor` | index.js:7-29 | the initial options (no file, no timer, `watchfile` true, no-op hooks, no defaults); empty snapshots and table; not loaded |
| `ConfigManager.Config.Setup` | index.js:31-65 | options are overridden; both snapshots are seeded with the defaults; the timer and watch restart only when the patch names them; then, when asked, the reload's outcome as in `Reload` under the overridden options, starting from the seeded snapshots |
| `ConfigManager.Config.Stop` | index.js:67-70 | both triggers stop; snapshots, table and options are unchanged |
| `ConfigManager.Config.Reload` | index.js:72-109 | with no file configured or a failed read it raises (`Cannot load config file` before the first load, the `require` error after it) and leaves snapshots and `loaded` unchanged. On success, the dynamic snapshot is exactly the defaults overridden by the source. The static snapshot is filled only on the first load and unchanged afterwards. The calls are the begin hook, `FiredCalls` against the previous dynamic snapshot, then the end hook. The object invariant is kept |
| `ConfigManager.Config.ClearDynamic` | index.js:86-88 | the key-deleting loop leaves the dynamic snapshot empty |
| `ConfigManager.Config.Subscribe` | index.js:111-134 | a handler that is not a function raises and changes nothing. Otherwise the entry is stored under the given or generated id, replacing an entry with that id in place. The initial call `(dynamicConfig, null)` is made unless `init_call` is false |
| `ConfigManager.Config.Unsubscribe` | index.js:136-138 | only that id's entry is removed; the others keep their entries and order; an absent id changes nothing |
| `ConfigManager.Config.Loaded` | index.js:140-142 | `loaded` is whether a reload has succeeded |
| `ConfigManager.Config.DynamicConfig` | index.js:144-147 | raises `Config not loaded` exactly when not loaded; otherwise returns the dynamic snapshot |
| `ConfigManager.Config.StaticConfig` | index.js:149-152 | raises `Config not loaded` exactly when not loaded; otherwise returns the static snapshot |
| `ConfigManager.Config.D` | index.js:154-156 | `d` behaves as `dynamicConfig` |
| `ConfigManager.Config.S` | index.js:158-160 | `s` behaves as `staticConfig` |
| `ConfigManager.Config.ToString` | index.js:162-164 | returns the configured file (`undefined` until one is set) |
| `Scenario.TwoSubscriptions` | index.js:111-134 | two subscriptions with `init_call: false` are registered in order and make no call |
| `Scenario.FirstLoadWithTwoSubscriptions` | index.js:31-65 | `setup` with defaults `{c: 3}` and source `{a: 1, b: 2}` leaves both snapshots equal to `{a: 1, b: 2, c: 3}`, and each subscription has been called once |
| `Scenario.FirstLoadFiresBoth` | index.js:96-107 | loading `{a: 1, b: 2, c: 3}` over the seeded `{c: 3}` calls the `a` and the `b` subscription once each |
| `Scenario.EditAfterFirstLoad` | index.js:72-109 | after the edit to `{a: 10, b: 2}` the static snapshot still holds the first load, the dynamic one holds `{a: 10, b: 2, c: 3}`, and over both reloads the `a` subscription was called twice and the `b` subscription once |
| `Scenario.EditFiresOnlyWatchedKey` | index.js:96-107 | reloading `{a: 1, b: 2, c: 3}` into `{a: 10, b: 2, c: 3}` calls the `a` subscription once and the `b` subscription not at all |

## Left out

- File watching and timers (`fs.watch`, `setInterval`, `clearInterval`, index.js:41-62, 67-70) are I/O. They are reduced to the flags `watching` and `timer`. An `fs.watch` that raises (for a missing path, or for the undefined default file while `watchfile` is true) is not modelled, and neither are the reloads these triggers start.
- Module loading (`require.resolve`, `require`, `require.cache`) is replaced by the `source` parameter. The model always reads the file fresh. index.js:83 evicts the cache entry keyed by `file` itself, so the source re-reads fresh only when `file` is already the resolved absolute path; a relative `file` keeps returning the first load, which is not modelled. A file that resolves but fails to evaluate is not modelled, and neither is one that exports something other than a plain object.
- The id from `crypto.randomBytes` is the `generatedId` parameter. Its uniqueness is not modelled.
- The `console.error` message on a failed read is not modelled.
- What handlers and hooks do is foreign code. Their exceptions are not modelled. Neither are their re-entrant calls into the manager during a reload.
- JavaScript's enumeration order puts integer-like ids before the others. The model enumerates every id in registration order.
- The getters return shared mutable objects, and `setup` returns `this` for chaining. The model returns the snapshot values.
- JsValues.MissingKeyReadsAsUndefined: holds for keys the configuration object does not inherit. An absent key named after an `Object.prototype` member (`toString`, `constructor`, `valueOf`, …) reads the inherited function at index.js:101, whose string form is not `"undefined"`; such keys are not modelled. Neither is a source's own `__proto__` key, which `Object.assign` (index.js:84, 94) turns into a prototype change instead of copying it, while `Snapshots.Merge` keeps it as a key.
- Values: only the safe integers (magnitude at most 2^53 - 1) are modelled as numbers. Larger integers, which JavaScript holds approximately and prints as rounded shortest digits (`String(2**56)` is `"72057594037927940"`), are not; neither are fractions, `NaN`, infinities or the exponent form. Neither are objects with their own `toString`, symbols, or functions used as values.
- Options given explicitly as `undefined` are not modelled. Neither are non-boolean `init_call` values, non-numeric `autoreload` values, or `watch` values that are neither a string nor an array.
- Subscribe: `subscribe(null)` raises a `TypeError` when `.handler` is read, not `Callback is not a function`. The model raises `CallbackNotAFunction` for it. Either way nothing is registered.
