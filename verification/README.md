# winston-couchdb transport, modelled in Dafny

This project models `lib/winston-couchdb.js`, a winston transport that writes
log records to CouchDB, lazily installs the `_design/Logs` view with its
`byTimestamp` index, translates winston queries into view range queries and
tails new records from the database's change feed.

The transport is the class `Transport.Couchdb`. Its fields are the settings
its constructor derives, the `_ensuredView` flag, whether the lazy client
has been built, and three logs of what it did: `calls` (every call made on
the CouchDB client, in order), `events` (the `'error'` and `'logged'` events
emitted on the transport) and `deferred` (events scheduled with
`setImmediate`). The CouchDB client is an abstract interface (module
`Client`). Each method takes the client's replies as parameters and returns
what the caller's callback receives. The callbacks that a reply triggers run
before the method returns.

The pure rules are stated as functions with lemmas:

- `Config`: the constructor's derivations. This includes the quirk that a
  missing host gives `http://http://localhost`.
- `Provision`: the provisioning chain run by `_ensureView`.
- `WritePath`: the persisted document and the outcome of an insert.
- `Query`: query translation and field projection. The in-place projection
  is the array method `Query.Project`.
- `ChangeStream`: stream offset resolution and the change filter. The
  stream object is the class `ChangeStream.LogStream`.
- `EndToEnd`: how these rules fit together.

The model keeps these details of the code, which are easy to miss:

- The write callback runs first, and the `'logged'` event follows on a later
  turn of the event loop.
- A missing database is detected from a falsy `info` body, not from an error.
- An error from looking up the design document leads to inserting it, not to
  an error.
- `rows` and `start` are passed on only when they are truthy, so `start: 0`
  asks for no skip.

## Model

| member | source | states |
|---|---|---|
| `Transport.Couchdb.constructor` | lib/winston-couchdb.js:47-69 | Each field equals the corresponding `Config` derivation of the options. No client call has been made and the view flag is unset. |
| `Config.OptionPrecedence` | lib/winston-couchdb.js:52-68 | `name` is the option or `'couchdb'`. `db` is `db`, else `database`, else `'winston'`. `port` is the option or 5984. A truthy `user` replaces `auth` with `{user, pass or ''}`; otherwise `auth` is the option unchanged. |
| `Config.HostOf` | lib/winston-couchdb.js:54-56 | The host always starts with `http:` or `https:`. It is the configured host unchanged exactly when that host matches `^https?:`. Otherwise it is `http://` followed by the host, or by `http://localhost` when the host is missing or empty. |
| `Config.MissingHostDoublesScheme` | lib/winston-couchdb.js:54-58 | With no host, or an empty one, the host is `http://http://localhost` and the default url is `http://http://localhost:5984`. |
| `Config.SecureIff` | lib/winston-couchdb.js:54-60 | `secure` holds exactly when the given host starts with lower-case `https:`, or `ssl` or `secure` is set. The case-insensitive test can never match on any other host. |
| `Decimal.Show` | lib/winston-couchdb.js:58 | The port renders as a non-empty string of decimal digits, with no leading zero unless the port is 0. |
| `Decimal.ParseShow` | lib/winston-couchdb.js:58 | Reading the rendered port back gives the port. |
| `Config.LastIndexOf` | lib/winston-couchdb.js:58 | Gives the last colon of a string, or says that there is none. |
| `Config.UrlRoundTrip` | lib/winston-couchdb.js:58 | The url is exactly `host:port`. Splitting it at its last colon gives back the host and the port. |
| `Transport.Couchdb.EnsureView` | lib/winston-couchdb.js:122-166 | Once the flag is set, it returns success with no call. Otherwise it sets the flag, issues exactly the chain's calls and returns the chain's result. |
| `Provision.Chain` | lib/winston-couchdb.js:127-165 | The chain makes one to four calls, starting with info and in the order info, create, get, insert. A failing result is the error of info, the error of a create that was made, or the error of an insert that was made. |
| `Provision.EnsureStep` | lib/winston-couchdb.js:122-125 | With the flag set, a call makes no client call and reports success. Without it, the call runs the chain, starting with info. |
| `Provision.EnsureMany` | lib/winston-couchdb.js:122-125 | Over successive calls, the first runs the chain if the flag was unset. Every later call makes no client call and reports success. |
| `Provision.ChainOrder` | lib/winston-couchdb.js:127-165 | Info always comes first, and the calls follow the order info, create, get, insert. Create happens exactly when info returns no body. Get happens once the database is there. The design document is inserted exactly when get finds nothing. No call is repeated. |
| `Provision.ChainErrors` | lib/winston-couchdb.js:127-163 | An error from info, create or insert stops the chain and reaches the callback. An error from get leads to the insert. When get finds the design document, the chain succeeds. |
| `Provision.ChainProvisions` | lib/winston-couchdb.js:127-165 | Against a store that answers truthfully, the chain succeeds and leaves both the database and the view in place. On a store that already has them, it only reads. |
| `Provision.EnsuredIsSilent` | lib/winston-couchdb.js:123 | Every `_ensureView` call after the flag is set returns success with no client traffic. |
| `Provision.OnlyFirstEnsureProvisions` | lib/winston-couchdb.js:122-125 | Over any number of calls, all traffic is the first call's chain. So there is at most one create and at most one design insert, and every later call reports success even after a failure. |
| `Transport.Couchdb.EnsureClient` | lib/winston-couchdb.js:171-192 | The first use of the `client` getter runs the provisioning chain. Later uses issue nothing. |
| `WritePath.LevelOf` | lib/winston-couchdb.js:82 | The level is never empty. It is the given level when truthy, otherwise `'info'`. |
| `WritePath.LogParams` | lib/winston-couchdb.js:87-91 | The keys are the metadata's keys plus `timestamp`, `message` and `level`. Those three hold the write time, the message and the level. Every other metadata value is kept. |
| `WritePath.StampedFieldsWin` | lib/winston-couchdb.js:87-91 | Metadata cannot override the timestamp, message or level. No metadata key is lost. |
| `WritePath.InsertOutcome` | lib/winston-couchdb.js:97-115 | An insert's reply leads to exactly one event. The callback is invoked exactly when one is given, with the reply's error and `ok` true exactly on success. |
| `WritePath.InsertOutcomeExclusive` | lib/winston-couchdb.js:97-115 | An insert gives exactly one event. On error it is an immediate `'error'` and the callback gets `(err, false)`. On success it is a deferred `'logged'(level, msg)` and the callback gets `(null, true)`. The callback runs once if it is given. |
| `Transport.Couchdb.Log` | lib/winston-couchdb.js:78-116 | When silent, it acknowledges `(null, true)` with no call. Otherwise it runs the client kick-off, then makes exactly one insert of `{resource: 'log', params}`, then emits and acknowledges as `InsertOutcome` says. |
| `Transport.Couchdb.RunDeferred` | lib/winston-couchdb.js:110-112 | The deferred `'logged'` events are emitted, in order. |
| `Query.Translate` | lib/winston-couchdb.js:216-225 | `limit` and `skip` are set only from truthy `rows` and `start`. `descending` is set exactly for `order: 'desc'`, and then `from` becomes `endkey` and `until` becomes `startkey`. Otherwise `from` is `startkey` and `until` is `endkey`. |
| `Query.TranslateKeepsWindow` | lib/winston-couchdb.js:218-225 | In either order, the translated range visits exactly the instants between `from` and `until`. A missing bound leaves that side open. |
| `Query.DescendingSwapsBounds` | lib/winston-couchdb.js:217-221 | `start: 0` gives no skip. A descending query has `startkey = until` and `endkey = from`. |
| `Query.Restrict` | lib/winston-couchdb.js:235-243 | A projected document's keys are its keys intersected with `fields`, and the kept values are unchanged. |
| `Query.RestrictIdempotent` | lib/winston-couchdb.js:236-242 | Projecting twice is the same as projecting once. |
| `Query.Project` | lib/winston-couchdb.js:235-243 | Deleting unlisted keys in place leaves each document equal to its projection. |
| `Query.Present` | lib/winston-couchdb.js:230-243 | There is one result per row, in row order. Each result is the row's `params`, projected when `fields` is given. |
| `Query.QueryRun` | lib/winston-couchdb.js:209-246 | A view request with the translated query is made exactly when the flag was set or provisioning succeeded. A successful result ends with that request and has one document per row. |
| `Query.QueryRunContract` | lib/winston-couchdb.js:209-246 | Provisioning comes first, and its error is passed on with no view request. Otherwise exactly one view request carries the translated query. Its error is passed on, or its rows come back as their `params`, in order. With `fields`, each is the row's `params` restricted to `fields`, with the kept values unchanged. |
| `Transport.Couchdb.Query` | lib/winston-couchdb.js:199-247 | Its calls and the callback's result are those of `QueryRun` for the flag it found. Afterwards the view flag is set. |
| `ChangeStream.ResolveStart` | lib/winston-couchdb.js:271-277 | An explicit start other than -1 is kept. Both -1 and an absent start become exactly `update_seq`, or 0 if that is unset. That read fails exactly when the info body is falsy. |
| `ChangeStream.ReopenResumes` | lib/winston-couchdb.js:271-277 | The resolved offset is written back into the options, so reopening with the same options resumes from the same offset. |
| `ChangeStream.UnsetStartFollowsTip` | lib/winston-couchdb.js:271-277 | An unset start and a start of -1 both follow from the current tip, and become 0 when `update_seq` is unset. An explicit 0 needs no info. |
| `ChangeStream.Forward` | lib/winston-couchdb.js:290-292 | A change is forwarded exactly when it is not deleted and has a document with truthy `params`. The payload is those `params`. |
| `ChangeStream.ForwardFiltersToLogs` | lib/winston-couchdb.js:289-293 | A live log document is forwarded with its params. The design document, deletions and changes without a document are not forwarded. |
| `ChangeStream.LogStream.OnChange` | lib/winston-couchdb.js:289-293 | A change appends one `'log'` event if `Forward` accepts it, and nothing otherwise. |
| `ChangeStream.LogStream.OnError` | lib/winston-couchdb.js:295-297 | A feed error is re-emitted as `'error'` on the stream. |
| `Transport.Couchdb.Stream` | lib/winston-couchdb.js:253-301 | It runs the kick-off, then makes one info call. On error the stream emits `'error'` and nothing is followed. Otherwise the options' `start` is rewritten to the resolved offset, and the feed is followed from it with `include_docs`, `continuous`, `main_only` and ascending order. |
| `Client.IndexKey` | lib/winston-couchdb.js:150-161 | The view's map function never indexes the design document. It indexes a log document exactly when its resource is `'log'`, under its `params.timestamp`. Any other document is indexed only if its resource is `'log'` and it has `params`, because reading the timestamp of missing `params` throws. |
| `EndToEnd.WrittenLogIsIndexed` | lib/winston-couchdb.js:150-161 | The `byTimestamp` view indexes every written log under its write time. It never indexes the design document. |
| `EndToEnd.TimestampOnlyProjection` | lib/winston-couchdb.js:235-243 | With `fields: ['timestamp']`, a written log keeps only its timestamp. |
| `EndToEnd.WrittenLogIsStreamed` | lib/winston-couchdb.js:289-292 | A written log on the change feed is forwarded once, with its message and level. |

## Left out

- Building the `nano` client (lib/winston-couchdb.js:173-185): the url, request defaults and cookie it passes are not modelled. The client is abstract. Only the client's construction and the provisioning it starts at line 186 are modelled, as `EnsureClient`.
- Asynchrony: the model runs each operation's callback chain to completion, given the client's replies. When an operation starts provisioning, the chain's calls are recorded before the operation's own calls. In the source, the chain's later steps can interleave with other operations. The flag is set before the first call in both, so the once-only result is the same.
- `cycle.decycle` is a foreign library. `log` takes metadata that is already decycled, as a map, and every Dafny value is acyclic. String and array metadata, which `Object.assign` spreads into index keys, is not modelled. Number and boolean metadata contribute no keys, which is `meta = map[]` here. The `|| {}` fallback has no effect because `Object.assign` always returns an object.
- `new Date()` and `toISOString()`: the clock is the parameter `now`. Dates and view keys are abstract instants, ordered as time. ISO formatting is not modelled.
- `setImmediate`: the deferral is modelled as the `deferred` queue, which `RunDeferred` emits. The EventEmitter and `Stream` machinery is not modelled. This includes Node throwing on an `'error'` event that has no listener.
- The continuous change feed is not modelled. Its handlers are `LogStream.OnChange` and `LogStream.OnError`.
- `stream.destroy` (lines 259-266) is not modelled. It sets `destroyed` on the transport, and nothing in this file reads it. It stops the feed only if the feed already exists. The feed is created only once the info reply arrives, so a `destroy()` before that reply throws on the missing feed. The empty `catch` swallows the error, and the feed is still followed once the reply comes.
- `registerTransport` (lines 306-318) mutates a global registry and is not modelled.
- `Transport.Couchdb.Log`: models only the positional call `log(level, msg, meta, callback)` that the code implements. The object-form call `log(info, callback)` declared in `index.d.ts` is not modelled. In that form, the info object binds to `level` and the callback to `msg`, and `callback` is undefined. No acknowledgement is then ever delivered, and the stored `message` is the callback function.
- `normalizeQuery` belongs to the base transport and is taken as the identity. The call form `query(callback)` is the query whose options are all absent.
- The store's own handling of `limit`, `skip` and row order is not modelled. Only the key range a view query visits (`Query.Visits`) is.
- The view reply is taken as the source uses it: a sequence of log documents whose `params` are objects.
- `update_seq` is a natural number. String sequence tokens are not modelled.
- The port is a natural number. Non-numeric port values are not modelled.
- If `stream` gets a falsy info body while no start is set, the source throws inside the client's callback. The model stops there with no feed followed. What happens to the exception is not modelled.
- `test/transports/transport.js` and `test/helpers.js` test against a live database, and `index.d.ts` holds only type declarations. None of them is part of this model.
