# Live-reload task of the `serve` command

This project models the live-reload task in `lib/tasks/server/livereload-server.js`. The task owns one push server (a `tiny-lr` instance), which it creates the first time it is needed. It subscribes to the file watcher's `change` and `error` events. For each change it decides whether connected browsers should reload. It reports a failed start to the user, and watch errors to the user and to analytics.

Files:

- `js_text.dfy` (module `JsText`) covers the JavaScript value conventions the task relies on. These are optional properties, string truthiness, `|| ''`, how `+` writes an `undefined` operand, and the decimal text of an integral port number. It also has `ParseInteger`, the inverse of that text, with a round-trip lemma.
- `livereload_server.dfy` (module `LiveReload`) has the pure parts of the task (change filter, banner, start-up error, error report) as functions. The stateful parts are two classes:
  - `Server` is the push-server handle. It logs the payloads passed to `changed` and the ports passed to `listen`, and holds the function currently installed in its `error` property.
  - `LiveReloadTask` is the task. Its fields are the cached server, the watcher listeners it has registered, the UI lines it has written and the analytics records it has sent. A ghost counter of server constructions is tied to the cache by `Valid()`, and every method preserves it. So however many times the accessor is called, at most one server is ever constructed.
  - `StartThenChange` is a client of the task. From the contracts alone, it shows that an enabled start followed by a triggering change uses one fresh server owned by the task, and no other task's server.

Collaborators are represented as follows:

- `path.relative` and the truthiness of `filePath.match(pattern)` are `const` arrow fields of the task. They are arbitrary total functions, so nothing proved depends on their semantics.
- The result of binding the port is an input `BindOutcome` to `Start` and `Listen`. It is not a race between two callbacks.
- The promise that `start` returns is the result `StartOutcome`. `Resolved(None)` stands for a promise resolved with `undefined`, which is what `writeBanner` returns. `Rejected(SilentError(..))` stands for the `SilentError` that `writeErrorBanner` throws.

The error hook is not restored after a listen. `listen` (line 33) overwrites `server.error` with the promise's `reject` and never puts the previous hook back. So after `Listen` and `Start` the server's hook is `RejectPendingListen`.

## Model

| member | source | states |
|---|---|---|
| `LiveReload.FilterFold` | lib/tasks/server/livereload-server.js:64-67 | the `reduce` seeded with `acc` is true exactly when `acc` holds and no pattern in the list matches the path |
| `LiveReload.CanTrigger` | lib/tasks/server/livereload-server.js:62-67 | a change triggers exactly when no configured filter pattern matches its path relative to the project root; always triggers with no patterns; an absent path is filtered as the relative form of `""` |
| `LiveReload.FilterFoldAppend` | lib/tasks/server/livereload-server.js:64-67 | folding over `p + q` is folding over `p` and then continuing with `q`, so the filter is a conjunction that composes over pattern lists |
| `JsText.OrEmpty` | lib/tasks/server/livereload-server.js:62 | `filePath || ''` gives back any present path unchanged, the empty one included, and the empty string for an absent one |
| `LiveReload.Banner` | lib/tasks/server/livereload-server.js:54 | the success banner begins with `Livereload server on port ` and the rest reads back as exactly the port |
| `LiveReload.WriteErrorBanner` | lib/tasks/server/livereload-server.js:57-59 | the start-up error begins with `Livereload failed on port `, ends with `.  It is either in use or you do not have permission.`, and the text between reads back as exactly the port; it depends on nothing but the port |
| `JsText.NumberRoundTrip` | lib/tasks/server/livereload-server.js:54 | the text `'' + port` of an integral port parses back to that port |
| `JsText.NumberToStringInjective` | lib/tasks/server/livereload-server.js:58 | distinct ports give distinct texts, so banners and start-up errors tell ports apart |
| `LiveReload.ErrorLines` | lib/tasks/server/livereload-server.js:84-91 | `didError` writes two lines when the error has a stack and one otherwise; the first is highlighted and carries the message if it is truthy, else the error value's own text; the second is the unhighlighted stack |
| `LiveReload.ErrorRecord` | lib/tasks/server/livereload-server.js:93-96 | the analytics error record is a `trackError` with `isFatal` false; its description splits, for every error, into the message text, one space and the stack text, each written as `undefined` when absent |
| `LiveReload.ErrorDescriptionSplits` | lib/tasks/server/livereload-server.js:94 | when the message text has no space, the first space of the description is the one after the message, so message and stack can be read back |
| `LiveReload.ErrorDescriptionAmbiguous` | lib/tasks/server/livereload-server.js:94 | without that condition the description does not determine the parts: message `a b` with stack `c` and message `a` with stack `b c` give the same record |
| `LiveReload.LiveReloadTask.LiveReloadServer` | lib/tasks/server/livereload-server.js:20-27 | the first call constructs a fresh server and caches it; later calls return the cached handle untouched and construct nothing; at most one construction ever |
| `LiveReload.LiveReloadTask.Listen` | lib/tasks/server/livereload-server.js:30-36 | gets the (possibly new) server, replaces its `error` hook with the rejecting one, records one `listen` on the port, broadcasts nothing, and settles as the bind did |
| `LiveReload.LiveReloadTask.Start` | lib/tasks/server/livereload-server.js:38-51 | unless `liveReload` is exactly `true`: resolves with `Livereload server manually disabled.` and changes nothing (no listener, no server). Otherwise: registers one `change` then one `error` listener, listens once on `liveReloadPort` on the cached server or a fresh one, then either resolves after writing exactly the banner line, or rejects with the fixed start-up error and writes nothing. Analytics and broadcasts are untouched either way |
| `LiveReload.LiveReloadTask.WriteBanner` | lib/tasks/server/livereload-server.js:53-55 | appends exactly one UI line, the banner for the port |
| `LiveReload.LiveReloadTask.DidChange` | lib/tasks/server/livereload-server.js:61-81 | when `CanTrigger` holds: exactly one broadcast of `{files: ['LiveReload files']}` and exactly one `track({name: 'broccoli watcher', message: 'live-reload'})`, on the cached server or a fresh one. Otherwise no log and no server changes |
| `LiveReload.LiveReloadTask.DidError` | lib/tasks/server/livereload-server.js:83-97 | appends exactly `ErrorLines(e)` to the UI and exactly one `ErrorRecord(e)` to analytics, for every error value whose `message` and `stack` are strings or absent |

## Left out

- `createServer` (lines 9-17) builds a server of the foreign `tiny-lr` library and patches its `Server.prototype.error`. It is left out, and the server is an opaque handle whose effects are logged.
- The promise plumbing inside `listen` (lines 32-35) is left out. The bind result is an input, so the case where the error callback fires after a successful bind is not modelled.
- `chalk.red` is modelled as a `highlighted` flag on the line rather than as escape codes.
- The semantics of `path.relative` and of `String.prototype.match` are library calls and stay uninterpreted. Regular-expression matching is not modelled.
- `Task.extend`, the watcher's event emitter, and delivery of broadcasts to browsers are framework code and network I/O. `Start` records which listeners are registered. The listeners are never invoked; callers invoke `DidChange` and `DidError` directly.
- `liveReload` other than an absent value or a boolean (for example the number `1`) is not representable. Like every value other than `true`, it would take the disabled path.
- `ErrorLines` writes the error value's own string form when the value has no truthy message. What that form is for a non-`Error` value is up to the host, so it is given as `asText`. `ErrorRecord` does not use it: an absent message is written as `undefined`.
- `DidError` cannot be called with `null` or `undefined`. The watcher emitting such a value would make `error.message` (line 84) throw a `TypeError`, and `ErrorEvent` cannot represent that value.
- JsText.NumberToString: only an integral port below 10^21 in absolute value prints as its digits. In JavaScript a larger port prints in exponent form (`1e+21`). A non-integral, `NaN` or absent `liveReloadPort` (`3.5`, `NaN`, `undefined`) is not modelled either. Each of those texts would reach `listen` (line 48) and the start-up error (line 58).
- DidError: an error value whose `message` or `stack` is neither a string nor absent (for example `{message: 42}`) is not representable. Such a value reaches the `writeLine` and `trackError` calls (lines 85 and 94) converted by JavaScript's string rules, which the model does not follow.
