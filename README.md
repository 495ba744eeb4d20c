# mongodb-mocker: a Dafny model of the mocked server lifecycle

This project models `mongoDbMockedServer`, the class that starts a throwaway
in-memory MongoDB server on a free local port for a test suite, hands out one
cached database connection per database name, and shuts the server down by
closing every client it opened. The class keeps four pieces of state:
`config` (`null` or `{host, port}`), `connectionsCache` (database name to
connection), `clients` (every client the driver handed back) and
`serverEmitter` (the launcher's event emitter, present or absent). It is
modelled as the Dafny class `Server.MongoDbMockedServer` with those four
fields and one method per public operation.

Everything the class reaches outside itself is an input, so every call is
sequential and deterministic:

- `launch: int -> Attempt` gives what the launch attempt made with retry
  counter `j` meets. Either the free-port lookup rejects (`LookupFailed(e)`),
  or a port is found and the launcher returns an emitter and later calls back
  with an error value (`Launched(port, emitter, error)`). A launcher that
  threw synchronously lands in the same `.catch` as a failed lookup, so
  `LookupFailed` covers it too.
- `connect: string -> ConnectResult` gives the driver's callback arguments
  (an error and maybe a client) for the URI it is asked to connect to.
- `close: Client -> CloseOutcome` gives how each client's `close()` promise settles.

Error values follow JavaScript truthiness (`JsValues.Truthy`). Each promise
the class returns is modelled as `Settled`: resolved, rejected, or never
settling. That last case is real. A falsy port-lookup error makes
`Object.keys(undefined)` throw inside a promise handler. A connect callback
without a client makes `client.db` throw inside the driver's callback. An
`undefined` entry in `clients` makes reading `.close` throw during shutdown.

The start sequence (`Retry.StartRun`) and the shutdown drain
(`ClientDrain.Drain`) are specification functions. The class's looping
methods are proved equal to them, and the lemmas about them state the retry
bound, the stopping rule and the close fan-out. `Scenarios` holds call
sequences on fresh instances that follow the source's test suite.

The model follows what the code does, including where that differs from what its test suite expects or from a sticky-port design:

- Every launch attempt looks up a fresh port. The port is not kept across retries.
- `config` is assigned by the final attempt of a start sequence even when
  that attempt failed. A later `getConnection` therefore does not start
  again (`Scenarios.FailedStartStillSkipsStart`).
- There is no `started` flag. "Started" means `config` is not `null`. The
  test suite's `config.started` checks test a field the code never sets.
- A connect that fails still appends the driver's client to `clients`.
- A shutdown whose close fails leaves `config`, the cache and the emitter
  as they were. Only `clients` is emptied.

## Model

| member | source | states |
|---|---|---|
| `Retry.StartRun` | index.js:28-51 | a start sequence makes at least one attempt; when the callback receives a config that is the new `config`, and when it receives none (failed port lookup) `config` is unchanged |
| `Retry.StartRunAttemptsBound` | index.js:42-43 | a start sequence from counter `retries` makes at most `maxRetries - retries + 1` launch attempts (`maxRetries + 1` from zero) |
| `Retry.StartRunStopsAtFirstSettling` | index.js:29-50 | attempts continue exactly while the launcher reports 'EADDRINUSE' and the counter is below `maxRetries`; the first other attempt ends the sequence; a failed lookup passes its error with no config and leaves `config` unchanged; otherwise the launcher's error passes unchanged with `{127.0.0.1, port}`, which becomes `config`; the emitter is the last one returned |
| `Retry.SkipInUse` | index.js:42-44 | a run of `k` 'EADDRINUSE' failures within the bound adds `k` attempts and otherwise behaves as a sequence started `k` counters later |
| `Retry.AlwaysInUseExhausts` | index.js:42-47 | when every attempt meets 'EADDRINUSE', exactly `maxRetries - retries + 1` attempts are made and the callback gets 'EADDRINUSE' with the last attempt's config |
| `Retry.InUseThenLaunched` | index.js:42-47 | `k` in-use failures within the bound followed by a clean launch take `k + 1` attempts and succeed with that launch's port and emitter |
| `Retry.Settle` | index.js:55-61 | `start` rejects only with the callback's own truthy error (never with the empty-configuration error), resolves exactly when the error is falsy and a config arrived, and otherwise never settles |
| `Uri.Decimal` | index.js:70 | the port is rendered as a non-empty string of decimal digits without a leading zero |
| `Uri.DecimalRoundTrip` | index.js:70 | reading the rendered port digits back gives the port |
| `ClientDrain.DrainClosesEveryClosable` | index.js:124-129 | over a list with no undefined entry, `close` is called on exactly the clients that have it, in order, and the drain fails with the first rejection among them |
| `ClientDrain.DrainFailureIffSomeCloseRejected` | index.js:129-134 | the drain ends without a rejection exactly when every close it called succeeded |
| `ClientDrain.DrainStopsAtThrow` | index.js:126-128 | once the walk throws, later entries cause no close calls |
| `ClientDrain.DrainThrowsAtUndefined` | index.js:126-128 | the walk throws at the first undefined entry, after closing the closable clients before it |
| `Server.MongoDbMockedServer.constructor` | index.js:12-19 | `config` is the option or `null`; `maxRetries` is 5 when absent or zero, otherwise the option; cache, clients and emitter start empty |
| `Server.MongoDbMockedServer.StartMongoServer` | index.js:28-51 | the retry loop's callback arguments, attempt count, new `config` and emitter are those of `StartRun`; cache and clients are untouched |
| `Server.MongoDbMockedServer.Start` | index.js:54-62 | the promise settles as `Settle` says on the start sequence from counter 0, with its state effects |
| `Server.MongoDbMockedServer.GetConfig` | index.js:21-26 | with a config it resolves to it with no launch and no state change; without one it behaves as `start` |
| `Server.MongoDbMockedServer.AddConnection` | index.js:64-80 | without a config it rejects with 'Can not add connection if server is not started' and changes nothing; otherwise it connects to `mongodb://host:port/dbName`, appends the returned client even on failure, caches `client.db(dbName)` under `dbName` only on success, and never settles when no client came back |
| `Server.MongoDbMockedServer.GetConnection` | index.js:82-108 | `dbName` defaults to 'test'; a cached name resolves to the cached connection with no launch, no connect and no state change; an uncached name with a config connects without starting; without a config it starts first and connects only if the start resolved, otherwise passing the start's rejection on |
| `Server.MongoDbMockedServer.ShutDown` | index.js:116-137 | signals the emitter if present, empties `clients`, closes as `Drain` says; when every close succeeds, clears emitter, config and cache; otherwise rejects (or never settles on an undefined entry) keeping them |
| `Scenarios.FourInUseThenLaunch` | test.js:62-78 | with the default retry count, four in-use failures then a clean launch resolve to `{127.0.0.1, port}` after five attempts |
| `Scenarios.AlwaysInUseRejects` | test.js:49-60 | a falsy `maxRetries` gives 5; an always-in-use launcher is tried six times, `start` rejects with 'EADDRINUSE', and `config` is set anyway |
| `Scenarios.LookupFailureKeepsConfig` | index.js:29-50 | a failed port lookup passes its error to `start` and leaves the configured `config` in place |
| `Scenarios.StartedServerSkipsStart` | test.js:117-133 | after a start, `getConnection` on a new name makes no launch and connects to the started server's URI; a resolved connection is scoped to that name |
| `Scenarios.CachedConnectionIsReused` | test.js:135-154 | after a resolved `getConnection`, a second one for the same name returns the identical connection with no launch and no connect |
| `Scenarios.FailedStartStillSkipsStart` | index.js:42-47 | after a start that ran out of retries, `getConnection` makes no launch and connects to the last attempted port |
| `Scenarios.IdleShutDown` | index.js:116-136 | shutting down a never-started instance signals nothing, closes nothing, resolves, and leaves no config, cache or clients |
| `Scenarios.ShutDownForgetsConnections` | index.js:123-133 | after a resolved connection, a shutdown with succeeding closes resolves after closing that client; a second shutdown closes nothing; the name is no longer cached, so asking again starts a new server |

## Left out

- The free-port lookup (`portfinder`), the launcher (`mongodb-prebuilt`), the driver's `MongoClient.connect`, `client.db` and `client.close` are inputs, not models: foreign process and network libraries.
- The `mongoClient` constructor option only selects the driver; it is represented by the `connect` input of each call.
- The `'mongoShutdown'` event is represented only by the `signalled` result of `ShutDown`; what the external process does on it is not modelled.
- The 200 ms retry backoff, the 100 ms shutdown grace period and all promise and callback asynchrony: calls are modelled as sequential and complete, so concurrent `start` or `getConnection` calls, which the code does not guard, are not modelled.
- `ShutDown`: when several closes reject, `Promise.all` rejects with whichever rejects first in time; the model takes the first in list order, because timing is not modelled.
- The cache is a map; keys inherited from `Object.prototype` (such as `constructor`), which a plain JavaScript object would report as cached, are not modelled.
- Options other than the modelled shapes (a non-numeric `maxRetries`, a `config` object with other keys) and callbacks invoked more than once are not modelled.
- The commented-out `reset` method (index.js:110-114) has no code.
- The example application under `example/` and the database reads and writes in the test suite exercise the external database engine, not this class.
