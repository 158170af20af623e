# Bootstrap script of a single-page App: storage partitions, version redirect, token refresh, port bridge

This project models the browser bootstrap script `public/dist/_js/page.js`. The script starts an authenticated session, constructs the App, and wires the App to the page. The model covers the parts of the script that make decisions:

- **Storage** (`storage.dfy`). localStorage is modelled as a table from slot key to the object stored in that slot. The script uses only the slot `"app"`. `load` projects a global partition and the current route's local partition out of that object. `store(null)` deletes the slot. Any other `store` reads the object back, overwrites two keys and writes the object back. The storage-event listener filters on storage area and key, then projects the event's new value.
- **Version redirect** (`detect.dfy`). The URL of the current page under another version: `"/" + version + "/" + route path + query string`.
- **Token refresh** (`auth.dfy`). What one refresh outcome does to the token and to the refresh callback, and what a series of refresh ticks does.
- **Port bridge** (`ports.dfy`). `subscribe` and `send` on a named port of the App. Both do nothing when the App has no ports or no port of that name.
- **Entry-point lookup** (`page.dfy`). The page name is split at `"."` and folded over the App's module tree.
- **Wiring** (`bootstrap.dfy`). Which handler is subscribed to which port. What the store handler, the storage listener and the refresh tick send back to the App.

JavaScript values are the datatype `JsValues.Json` (`jsvalues.dfy`). `Undefined` and `Null` are separate constructors, so a missing key can be told apart from a stored `null`. `JsValues.Prop` models a property read `v[k]`.

## Behaviour of the code as written

This model follows the code as written, including the following behaviour, which differs from what one might expect of such a store.

- **Global partition keys.** One might expect the global partition to round-trip. But `store` writes the global partition to the key `"global"` (page.js:142). `load` reads it from `"_global"` (page.js:130). So the global partition does not round-trip. `Storage.LoadAfterStore` states what `load` gives after a store, and `Storage.GlobalNotRoundTripped` shows a concrete case.
- **Store on an absent slot.** One might expect such a store to start from an empty object. In the code, `JSON.parse(null)` is `null` and `null.global = …` throws a TypeError (page.js:119,140-142). `Storage.Updated` returns `None` in that case and writes nothing.
- **Missing keys.** One might expect a missing key to read as `null`. In the code it reads as `undefined` (page.js:130-131).
- **Storage listener.** The listener passes the raw `event.newValue` text to `toValue` without parsing it (page.js:165). A non-null text therefore gives `undefined` for the global part. It also gives `undefined` for the local part, unless the route path is `"length"` or an index into the text.
- **Refresh callback.** The callback does not compare token values. It fires whenever the library reports `refreshed` (page.js:75-77).

## Model

| member | source | states |
|---|---|---|
| `JsValues.Prop` | public/dist/_js/page.js:129-132 | A property read. On an object, a present key gives its value and a missing key gives undefined. On a string or an array, `length` gives the length and an in-range index key gives that character or element. Every other key on a string or an array gives undefined. Numbers and booleans give undefined. Reading from null or undefined is excluded, because it throws. |
| `Storage.AllStorage` | public/dist/_js/page.js:118-120 | Reading the slot gives null iff the slot is absent. Otherwise it gives the stored object. |
| `Storage.ToValue` | public/dist/_js/page.js:122-134 | `toValue(null)` is `{null, null}`. On an object it is the `"_global"` entry and the route-path entry, where a missing key gives undefined. On a raw text the global part is undefined and the local part is the text's own property named by the route path (its `length`, one of its characters, or undefined). |
| `Storage.Loaded` | public/dist/_js/page.js:118-134 | `load()` on an absent slot is `{null, null}`. Otherwise it is the stored object's `"_global"` entry and its route-path entry, where a missing key gives undefined. |
| `Storage.PageStorage.Load` | public/dist/_js/page.js:153-155 | The method returns exactly `Loaded` of the current localStorage table and this page's route path. |
| `Storage.Updated` | public/dist/_js/page.js:136-147 | `update(null)` removes the slot. Otherwise `update` throws iff the slot is absent or the value is undefined. On success, the other slots are unchanged, keys `"global"` and the route path are set (the route path last), and every other key of the stored object is kept. |
| `Storage.PageStorage.Store` | public/dist/_js/page.js:136-147 | The method reports a throw iff `Updated` fails. It leaves localStorage unchanged on a throw and sets it to `Updated` otherwise. |
| `Storage.PageStorage.OnStorageEvent` | public/dist/_js/page.js:162-168 | The callback runs iff the event's area is this page's localStorage and its key is `"app"`. A null new value gives `{null, null}`. A raw text gives an undefined global part. Its local part is the text's own property named by the route path: the text's length for `length`, the indexed character for an index into the text, and undefined otherwise. |
| `Storage.PageStorage.ListenerIgnoresNewContent` | public/dist/_js/page.js:163-166 | For an ordinary route path, every accepted event with a text value gives `{undefined, undefined}`, whatever the text. |
| `Storage.StoreNullClears` | public/dist/_js/page.js:137-138 | `store(null)` deletes the slot, and `load()` afterwards gives `{null, null}`. |
| `Storage.StoreWithoutSlotThrows` | public/dist/_js/page.js:140-142 | A store of a defined, non-null value throws iff nothing is stored in the slot. (`store(null)` never throws, and a store of `undefined` throws even when the slot exists.) |
| `Storage.LoadAfterStore` | public/dist/_js/page.js:140-145 | After a store of a defined, non-null value into an existing slot, which always succeeds, `load()` on the same route gives the stored `local`. Its global part is the old `"_global"` entry, not the stored `global`, except on the route `"_global"` itself, where it is the stored `local`. (After `store(null)`, `load()` gives `{null, null}`; see `Storage.StoreNullClears`.) |
| `Storage.StoreKeepsOtherRoutes` | public/dist/_js/page.js:140-145 | A successful store of a non-null value on one route does not change what `load()` gives on another route. This holds unless that other route is `"global"` or the storing route is `"_global"`. (`store(null)` removes the slot and changes `load()` on every route.) |
| `Storage.RoutesIndependent` | public/dist/_js/page.js:140-145 | After stores from two different routes other than `"global"`, each route's local partition can be recovered by `load()` on that route. |
| `Storage.StoreKeepsOtherLocal` | public/dist/_js/page.js:140-145 | A successful store of a non-null value on one route does not change the local partition `load()` gives on any other route except `"global"`. This includes stores on the route `"_global"`. |
| `Storage.StoreAllKeeps` | public/dist/_js/page.js:140-145 | On an existing slot, stores of defined, non-null values on routes other than `other` and `"global"` all succeed. They leave the slot in place and do not change the local partition `load()` gives on `other`. If none of them is on `"_global"`, they do not change the global part either. |
| `Storage.StoreAllRoutesIndependent` | public/dist/_js/page.js:140-145 | After any sequence of stores of defined, non-null values on distinct routes other than `"global"` into an existing slot, each route's local partition is recovered by `load()` on that route. |
| `Storage.GlobalNotRoundTripped` | public/dist/_js/page.js:130-142 | Concrete case: store `{global: 1, local: 2}` into an empty stored object, then load on the same route. The result is `{undefined, 2}`. |
| `Storage.ScenarioLoad` | public/dist/_js/page.js:129-132 | Loading the route `reports/sales` from `{"_global":{"theme":"dark"},"reports/sales":{"page":2}}` gives both entries. |
| `Storage.ScenarioStore` | public/dist/_js/page.js:140-145 | Storing `{global:{"theme":"dark"}, local:{"page":3}}` into that object keeps `"_global"`, replaces the route's entry and adds a `"global"` key. |
| `Detect.VersionToPath` | public/dist/_js/page.js:34-36 | The redirect URL is `/`, then the version, then `/`, then the route path followed by the query string. |
| `Detect.SplitVersion` | public/dist/_js/page.js:35 | The inverse of the redirect URL: it yields a version without `/` and a remainder whose redirect URL is the input. |
| `Detect.VersionToPathSplits` | public/dist/_js/page.js:34-36 | For a version without `/`, splitting the redirect URL gives back the version, and the route path followed by the query string. |
| `Detect.VersionToPathInjective` | public/dist/_js/page.js:35 | For versions without `/`, two redirect URLs are equal only if their versions are equal and their route path plus query string are equal. |
| `Detect.ScenarioRedirect` | public/dist/_js/page.js:35 | Version `v3`, route `x/y` and query `?a=1` give `/v3/x/y?a=1`. |
| `Auth.Session.Init` | public/dist/_js/page.js:61-70 | A successful login stores the token and passes it to the callback. A failed login hands over nothing and leaves the token unchanged. |
| `Auth.TokenAfter` | public/dist/_js/page.js:74-81 | After "refreshed" the token is the new one. After an error there is no token. The token changes only through one of these two outcomes. |
| `Auth.Session.UpdateToken` | public/dist/_js/page.js:72-82 | "Refreshed" stores the new token and calls back with it. "Not refreshed" changes nothing and does not call back. An error clears the token and does not call back. |
| `Auth.Session.RunRefreshes` | public/dist/_js/page.js:103-106 | Over a series of refresh ticks, the callback receives exactly the renewed tokens, in order. The final token is the fold of the outcomes. |
| `Auth.LastNotifiedIsCurrent` | public/dist/_js/page.js:72-82 | If no tick fails, the last token handed to the callback is the session's current token. If no token was handed over, the old token remains. |
| `Auth.ErrorLastClears` | public/dist/_js/page.js:79-81 | If the last tick is a failed refresh, no token is left. |
| `Auth.NotRefreshedIsSilent` | public/dist/_js/page.js:74-78 | Ticks that all report "not refreshed" never call back and never change the token. |
| `ElmPorts.Subscribed` | public/dist/_js/page.js:183-187 | `subscribe` does nothing when the App has no ports or no port of that name. Otherwise only that port changes, and the handler becomes its last subscriber. |
| `ElmPorts.Sent` | public/dist/_js/page.js:189-193 | `send` does nothing when the App has no ports or no port of that name. Otherwise only that port changes, and the data becomes its last message. |
| `ElmPorts.Bridge.constructor` | public/dist/_js/page.js:181-195 | `ElmPorts.init(app)`: the bridge is bound to the given App. |
| `ElmPorts.Bridge.Subscribe` | public/dist/_js/page.js:183-187 | The App's ports become `Subscribed` of the old ports. |
| `ElmPorts.Bridge.Send` | public/dist/_js/page.js:189-193 | The App's ports become `Sent` of the old ports. |
| `ElmPorts.SubscribeSendCommute` | public/dist/_js/page.js:183-193 | A subscribe and a send give the same ports in either order. |
| `ElmPorts.SubscribeOrder` | public/dist/_js/page.js:183-187 | Handlers subscribed one after another to an existing port end up in registration order. The port's messages and the other ports are unchanged. |
| `Page.Split` | public/dist/_js/page.js:205 | `split(".")` yields at least one piece, and no piece contains the separator. |
| `Page.JoinSplit` | public/dist/_js/page.js:205 | Joining the pieces of a split gives back the page name. |
| `Page.SplitJoin` | public/dist/_js/page.js:205 | Splitting a join of separator-free pieces gives back the pieces. |
| `Page.Member` | public/dist/_js/page.js:206 | `acc[m]` finds a module iff `acc` is a module that has the member, and it is that member. It gives undefined iff `acc` is a module without the member. Otherwise it throws. |
| `Page.Reduce` | public/dist/_js/page.js:205-206 | Once the fold has thrown, it stays thrown. From undefined it never finds a module, and it stays undefined only if no segment is left. |
| `Page.ReduceAppend` | public/dist/_js/page.js:205-206 | Folding over a concatenation is folding over each part in turn. |
| `Page.ReduceIsAt` | public/dist/_js/page.js:205-206 | The left fold of property reads finds a module iff the nested lookup does, and it is the same module. |
| `Page.EntryPoint` | public/dist/_js/page.js:204-206 | The entry point for a page name is the `EntryPoint` member at the name's `.`-separated path. If that member is missing, the result is the TypeError. |
| `Bootstrap.StoredToJson` | public/dist/_js/page.js:226-229 | The object handed to `onStorageChanged` has `global` and `local` properties holding the two partitions. |
| `Bootstrap.Wired` | public/dist/_js/page.js:231-257 | Wiring leaves an App without ports untouched and never adds or removes a port. |
| `Bootstrap.WiredPorts` | public/dist/_js/page.js:231-257 | After wiring, each of the four ports the App has gains exactly its own handler and no other port changes. An App without ports is untouched. |
| `Bootstrap.Wire` | public/dist/_js/page.js:231-257 | The App's ports become `Wired` of the old ports. |
| `Bootstrap.HandleStore` | public/dist/_js/page.js:244-247 | The `store` handler stores the value. If the store did not throw, it sends that same value to `onStorageChanged`. If it threw, nothing is sent. |
| `Bootstrap.HandleStorageEvent` | public/dist/_js/page.js:249-251 | An event the listener accepts is sent to `onStorageChanged` in its `{global, local}` form. Any other event sends nothing. |
| `Bootstrap.HandleRefresh` | public/dist/_js/page.js:235-237 | A renewed token is sent to `onTokenChanged`, and nothing else is sent. |

## Left out

- The identity library's calls are not modelled: `Keycloak(...)` with its URL, realm and client id, `init`, the `updateToken` transport and `logout` (page.js:50-54,62-69,73,85,108-110). They belong to a foreign library. Only their outcomes are modelled, as inputs. The constants `updateTokenConfig` (page.js:56-59) appear as `Auth.REFRESH_INTERVAL_MS` and `Auth.MIN_VALIDITY_SECONDS`.
- Version detection by `GettoDetect` and the navigation `location.href = path` (page.js:33,37-39) are foreign and side-effecting. So the model does not state "no navigation when the versions match". Only the URL string is modelled.
- The error page (page.js:12-27) and the outer and inner `catch` blocks that show it and rethrow (page.js:259-267) are DOM work. A throw appears in the model only as an outcome (`Storage.Updated` returning None, `Page.EntryPoint` returning None).
- Timing is not modelled: `setTimeout` and `setInterval` (page.js:104-105,246,254-256). The refresh ticks are given as a sequence of outcomes.
- Bootstrap.HandleStore: sends to `onStorageChanged` right after the store. The script sends on a later turn of the event loop, so events arriving in between are not modelled.
- The `fixedMidashi` handler's `FixedMidashi.create()` (page.js:255) is a DOM side effect. The model keeps only its subscription.
- App construction is not modelled: `EntryPoint.init({flags})` with the token, the loaded storage and the project metadata read from DOM `innerText` (page.js:207-218). The Elm runtime is an opaque collaborator. Its entry-point lookup is modelled in `Page`.
- JSON text encoding is not modelled (page.js:119,145). A slot holds an already-parsed object, and `JSON.stringify` followed by `JSON.parse` is treated as identity. So a key assigned `undefined` stays in the model's object, where the browser would drop it. Reads through `Get` treat both the same way. The same holds below the top level: `JSON.stringify` drops an `undefined` member of a nested object and turns an `undefined` array element into `null`, which the model does not do. Values that come from the App through a port are decoded from JSON and never contain `undefined`, so for them the two agree. Malformed JSON and a slot holding a non-object are not modelled. Numbers are integers.
- Writing to localStorage can fail: `localStorage.setItem` throws when the quota is exceeded or storage is disabled (page.js:145). The model's `store` never fails at that step; only the missing slot and an undefined value make it throw.
- JsValues.Prop: models own properties only. Inherited members (such as `toString` or `constructor` reached through the prototype chain) are not modelled. Strings index by Dafny characters rather than UTF-16 code units.
- ElmPorts.Bridge.Subscribe: does not tell incoming ports from outgoing ones. In the browser, calling `subscribe` on a port that only has `send` would throw; here it appends the handler.
- ElmPorts.Bridge.Send: does not tell incoming ports from outgoing ones. In the browser, calling `send` on a port that only has `subscribe` would throw; here it appends the message.
- Storage events reach the page asynchronously from other tabs. That concurrency is not modelled. Each event is handled as one call.
