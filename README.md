# IndexedDB facade: connection cache, schema upgrade and request dispatch

This project models `src/core/database.js`, a small promise-based facade over a
browser's IndexedDB engine, and proves properties of the model in Dafny.

The module keeps one piece of state, the module variable `dbInstance`. The
exported factory `database(storeConfigs)` returns an object with these
operations: `get`, `getAll`, `add`, `put`, `delete`, `count`, `addAll`,
`destroy` and `close`. Every such object shares the one `dbInstance`.

The engine is replaced by an abstract state with two parts:
- the object stores of each database it holds;
- a log of the module's `open`, `transaction`, request-primitive, `close` and
  `deleteDatabase` calls. The calls the upgrade makes (`objectStoreNames.contains`,
  `createObjectStore`, `createIndex`) are not logged; they show up only in the
  stored schema.

The engine's answers are parameters of each operation:
- whether `onupgradeneeded` fires;
- whether the open succeeds;
- the reply to a request;
- whether a transaction completes;
- which item's `add`, if any, throws synchronously in `addAll`;
- whether a delete succeeds.

The modules follow the parts of the file:

- `Values`: optional fields, settled results, and JavaScript values with their
  truthiness.
- `Config`: `DEFAULT_CONFIG`, the object spread `{ ...DEFAULT_CONFIG, ...storeConfigs[0] }`
  and the factory's default argument.
- `Upgrade`: the `onupgradeneeded` handler. It is specified by a fold over the
  store configurations (`Upgraded`) and implemented in place, as a class whose
  `OnUpgradeNeeded` runs the two `forEach` loops over a mutable store map.
- `Engine`: connections, modes, operations, the engine call log, the state
  value and its invariant (the cached connection is the one most recently
  opened).
- `Connection`: `openDatabase`, `close` and `destroy` as transitions of the
  state, with their lemmas.
- `Requests`: the mode table, the payload rule, single-request transactions and
  the bulk `addAll` transaction.
- `Database`: the imperative code. Class `Runtime` holds `dbInstance` and the
  engine. Class `Facade` is the object `database()` returns. Every method is
  proved to move the state exactly as the matching transition function does.
  Three client methods show, from those contracts alone:
  - facades share one connection;
  - `close` forces a reopen;
  - migrating twice gives the schema of migrating once.

Three facts about the code shape the model:
- The code does no configuration validation: duplicate store names are
  allowed, and the first one wins.
- `destroy` does not close the connection before deleting.
- The cache is reused whatever database name or version a caller's
  configuration names.

## Model

| member | source | states |
|---|---|---|
| Config.EffectiveConfig | src/core/database.js:14-17 | the effective configuration always has a store name, database name, version and key path |
| Config.ConfigsOrDefault | src/core/database.js:60 | the factory uses `[DEFAULT_CONFIG]` exactly when no list is passed, else the list given |
| Config.EffectiveFieldwise | src/core/database.js:1-17 | database name, version and fallback key path each come from the first configuration when it has the field, else from the defaults `'indexedDB'`, `1`, `'id'` |
| Config.LaterConfigsIgnored | src/core/database.js:14-17 | two configuration lists with the same first entry give the same effective configuration |
| Config.DefaultsWhenUnconfigured | src/core/database.js:14-17 | no argument and an empty list both give `DEFAULT_CONFIG` |
| Upgrade.IndexSchemas | src/core/database.js:28-30 | one index per listed index, in list order, each with its name, key path and unique flag |
| Upgrade.NewStoreShape | src/core/database.js:27-30 | a new store's key path is its own when truthy, else the fallback; its indexes are exactly the listed ones, in order, with `unique` true only when given as true; no list gives no indexes |
| Upgrade.UpgradedKeys | src/core/database.js:25-32 | after the upgrade the stores are exactly the old ones plus one per configured name |
| Upgrade.UpgradedKeepsExisting | src/core/database.js:25-32 | a store that existed before is left exactly as it was, with no new indexes |
| Upgrade.FirstConfigWins | src/core/database.js:25-32 | the store under a new name is the one built from the first configuration with that name |
| Upgrade.UpgradedNoOp | src/core/database.js:25-32 | when every configured name already exists the upgrade changes nothing |
| Upgrade.UpgradeIdempotent | src/core/database.js:25-32 | running the upgrade twice gives the schema of running it once |
| Upgrade.UpgradeTransaction.Contains | src/core/database.js:26 | reports whether a store of that name exists |
| Upgrade.UpgradeTransaction.CreateObjectStore | src/core/database.js:27 | adds one empty store with the given key path and changes nothing else |
| Upgrade.UpgradeTransaction.CreateIndex | src/core/database.js:29 | appends one index to the named store and changes nothing else |
| Upgrade.UpgradeTransaction.OnUpgradeNeeded | src/core/database.js:23-33 | the in-place walk over the configurations leaves the store map equal to the fold `Upgraded` of the old one |
| Connection.CachedOpenSkipsEngine | src/core/database.js:10-13 | with a cached connection, open returns it unchanged and calls nothing, whatever configurations are passed |
| Connection.UncachedOpenCallsEngineOnce | src/core/database.js:18-41 | without a cached connection, exactly one engine open of the effective name and version. Success caches that connection; failure rejects and leaves cache and schema untouched; an open without an upgrade leaves the schema untouched |
| Connection.OpenCreatesConfiguredStores | src/core/database.js:19-36 | a successful upgrading open leaves the old stores unchanged plus exactly the configured names in the opened database |
| Connection.ReopenMigratesOnce | src/core/database.js:23-33 | open, close, and open again with an upgrade leaves the stored schema as the first open left it |
| Connection.CloseIdempotent | src/core/database.js:134-139 | `close` empties the cache and a second `close` changes nothing |
| Connection.OpenAfterCloseCallsEngine | src/core/database.js:134-139 | after `close` the next open issues a new engine open |
| Connection.DestroyClearsCacheOnSuccess | src/core/database.js:89-102 | destroy resolves exactly when the delete succeeds. Success removes that database and keeps every other one, and clears the cache whatever database it held; failure leaves both alone. It never opens |
| Connection.DestroyDefaultIgnoresConfig | src/core/database.js:89 | `destroy()` deletes `'indexedDB'` even when the facade's configuration names another database |
| Connection.StepsPreserveConsistent | src/core/database.js:8-42 | open, close and destroy keep the cached connection the most recently opened one |
| Requests.RequestArgs | src/core/database.js:48 | the payload is passed exactly when it is truthy, and then alone |
| Requests.FalsyKeysDropped | src/core/database.js:48 | keys `0` and `""` are dropped, so the primitive is called with no argument |
| Requests.ModesAreFixed | src/core/database.js:62-123 | `get`, `getAll`, `count` are read-only; `add`, `put`, `delete`, `addAll` read-write; `addAll` issues `add`; the default store is `'store'` |
| Requests.AddRequests | src/core/database.js:108 | one `add` per item in list order, each carrying its item whatever its truthiness |
| Requests.RequestStepShape | src/core/database.js:44-58 | after the open, one transaction in the given mode and one request. Cache and schema stay as the open left them; the call resolves exactly when open and request both succeed |
| Requests.AddAllStepShape | src/core/database.js:104-117 | `addAll` opens no further connection and keeps the invariant. It resolves exactly when the open succeeds, no `add` throws and the transaction completes; an `add` that throws rejects the call with that item's exception |
| Requests.AddAllAfterOpen | src/core/database.js:104-117 | once open, `addAll` only appends its own calls to the log, leaving cache and schema as the open left them, and settles on its own outcome |
| Requests.AddAllIssuesInOrder | src/core/database.js:104-109 | after the open: one read-write transaction on the store, then one `add` per item in order, stopping before the item whose `add` throws |
| Requests.TwoRequestsOpenOnce | src/core/database.js:8-13 | two requests, even through differently configured facades, open the engine once and leave the first facade's connection cached |
| Database.Runtime.constructor | src/core/database.js:8 | the module starts with no cached connection |
| Database.Runtime.OpenDatabase | src/core/database.js:10-42 | the module state and engine move exactly as `OpenStep`; the invariant is kept |
| Database.Runtime.ExecuteRequest | src/core/database.js:44-58 | moves the state as `RequestStep` with the payload rule applied to the data |
| Database.Facade.constructor | src/core/database.js:60 | the facade keeps the given list, or `[DEFAULT_CONFIG]` when none is passed |
| Database.Facade.Get | src/core/database.js:62-64 | read-only `get` on the named or default store, key passed when truthy |
| Database.Facade.GetAll | src/core/database.js:65-79 | read-only `getAll` with no argument |
| Database.Facade.Add | src/core/database.js:80-82 | read-write `add`, payload passed when truthy |
| Database.Facade.Put | src/core/database.js:83-85 | read-write `put`, payload passed when truthy |
| Database.Facade.Delete | src/core/database.js:86-88 | read-write `delete`, key passed when truthy |
| Database.Facade.Destroy | src/core/database.js:89-103 | moves the state as `DestroyStep` on the given name or `'indexedDB'` |
| Database.Facade.AddAll | src/core/database.js:104-118 | the loop issues the adds into one transaction and stops at an `add` that throws; the state moves as `AddAllStep` |
| Database.Facade.Count | src/core/database.js:119-133 | read-only `count` with no argument |
| Database.Facade.Close | src/core/database.js:134-139 | moves the state as `CloseStep` |
| Database.TwoFacadesShareOneOpen | src/core/database.js:8-13 | two facades with different configurations: two reads give one engine open, on the first facade's database |
| Database.CloseForcesReopen | src/core/database.js:134-139 | read, close, read gives two engine opens |
| Database.MigrateTwice | src/core/database.js:25-32 | two upgrading opens of a fresh database give the same schema, holding exactly the configured store names |

## Left out

- `src/code/indexedDB.js` is not part of this model. It is an earlier revision with no state of its own. Its single-store check is the one-configuration case of the upgrade.
- Record semantics are left to the engine: what `get`, `add`, `put`, `delete`, `getAll` and `count` return or refuse, and the atomicity of a transaction. Replies and transaction outcomes are parameters.
- When `onupgradeneeded` fires is decided by the engine's version comparison. It is a parameter of each open.
- Promises, event callbacks and interleaved calls are not modelled; each call is one atomic step. Two opens issued before the first succeeds would both miss the cache, and the model cannot express that.
- Rejections carry a tag (open, request with primitive and store, `addAll` with store, delete with name), not the message strings.
- A synchronous `add` exception in `addAll` is modelled through the `throwsAt` parameter. The adds issued before it may still commit, since the transaction is not aborted, but the call has already rejected; record contents are not modelled, so the model shows only which adds were issued. Other engine exceptions are folded into the failure outcome of the open or the reply. These are: a duplicate index name, an invalid key path, a transaction on a missing store, a primitive called without its argument, an invalid version. A duplicate index name within one list is simply appended in the model.
- A `deleteDatabase` blocked by the still-open cached connection waits until that connection closes, for example through `close()` on any facade. The delete then succeeds, and `onsuccess` finds `dbInstance` already null. The model treats each delete as one step that either succeeds or fails, so it cannot express the wait.
- A blocked `indexedDB.open` (another connection holds an older version open) fires `onblocked`, which the code does not handle, so the promise at src/core/database.js:18-41 stays pending until the engine proceeds. The model has only success and failure for an open.
- Engine-side effects of closing a connection are not modelled beyond its entry in the call log.
- Value modelling:
  - Configuration fields are either absent or hold a value of their type; a field explicitly set to `undefined` or `null` is not modelled.
  - Key paths are single strings, not arrays.
  - Numbers are integers, so `NaN` and `-0` are not covered.
  - Objects are opaque and always truthy.
