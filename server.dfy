/**
 * The mocked MongoDB server: a lifecycle object that launches a throwaway
 * server, hands out one cached connection per database name, and shuts down
 * by closing every client it opened. The port lookup, the launcher, the
 * driver's connect and each client's close are inputs: `launch(j)` is what
 * the attempt made with retry counter `j` meets, `connect(uri)` what the
 * driver answers for `uri`, `close(c)` how closing client `c` ends.
 */
module Server {
  import opened JsValues
  import opened Entities
  import opened Retry
  import opened Uri
  import opened ClientDrain

  const DefaultMaxRetries: int := 5
  const DefaultDbName: string := "test"
  const NotStartedMessage: string := "Can not add connection if server is not started"

  /** How the promise of `addConnection` settles for the driver's answer `res`. */
  function ConnectReply(dbName: string, res: ConnectResult): Settled<Connection> {
    match res.client
    // `client.db(dbName)` on an undefined client throws inside the driver's callback
    case None => Pending
    case Some(c) => if Truthy(res.error) then Rejected(res.error) else Resolved(Db(c, dbName))
  }

  /** A start or config result carried over to a connection promise that failed for the same reason. */
  function Unsettled<T, U>(s: Settled<T>): Settled<U>
    requires !s.Resolved?
  {
    if s.Rejected? then Rejected(s.reason) else Pending
  }

  class MongoDbMockedServer {
    var config: Option<Config>
    const maxRetries: int
    var connectionsCache: map<string, Connection>
    var serverEmitter: Option<Handle>
    var clients: seq<Option<Client>>

    /** Every cached connection is scoped to the database it is cached under. */
    ghost predicate Valid()
      reads this
    {
      forall name :: name in connectionsCache ==> connectionsCache[name].dbName == name
    }

    /** `optConfig` and `optMaxRetries` are the `config` and `maxRetries` options; `Some(0)` is the falsy count. */
    constructor (optConfig: Option<Config>, optMaxRetries: Option<int>)
      ensures Valid()
      ensures config == optConfig
      ensures optMaxRetries == None || optMaxRetries == Some(0) ==> maxRetries == DefaultMaxRetries
      ensures optMaxRetries.Some? && optMaxRetries.value != 0 ==> maxRetries == optMaxRetries.value
      ensures connectionsCache == map[] && serverEmitter == None && clients == []
    {
      config := optConfig;
      maxRetries := if optMaxRetries.Some? && optMaxRetries.value != 0 then optMaxRetries.value else DefaultMaxRetries;
      connectionsCache := map[];
      serverEmitter := None;
      clients := [];
    }

    /** The start sequence from counter `retries`; returns what the callback receives and how many launches were tried. */
    method StartMongoServer(retries: int, launch: int -> Attempt) returns (cb: Callback, attempts: nat)
      requires Valid()
      modifies this
      ensures Valid()
      ensures var run := StartRun(old(config), old(serverEmitter), maxRetries, launch, retries);
              cb == run.cb && attempts == run.attempts &&
              config == run.config && serverEmitter == run.emitter
      ensures connectionsCache == old(connectionsCache) && clients == old(clients)
    {
      var r := retries;
      attempts := 0;
      while true
        invariant config == old(config)
        invariant connectionsCache == old(connectionsCache) && clients == old(clients)
        invariant var rest := StartRun(config, serverEmitter, maxRetries, launch, r);
                  rest.(attempts := rest.attempts + attempts) ==
                  StartRun(old(config), old(serverEmitter), maxRetries, launch, retries)
        decreases RetryBudget(maxRetries, r)
      {
        var a := launch(r);
        attempts := attempts + 1;
        if a.LookupFailed? {
          cb := Callback(a.reason, None);
          return;
        }
        var cfg := Config(Localhost, a.port);
        serverEmitter := a.emitter;
        if a.error == AddrInUse && r < maxRetries {
          r := r + 1;
        } else {
          config := Some(cfg);
          cb := Callback(a.error, Some(cfg));
          return;
        }
      }
    }

    /** Runs the start sequence from a zero counter and settles on the callback's arguments. */
    method Start(launch: int -> Attempt) returns (r: Settled<Config>, attempts: nat)
      requires Valid()
      modifies this
      ensures Valid()
      ensures var run := StartRun(old(config), old(serverEmitter), maxRetries, launch, 0);
              r == Settle(run.cb) && attempts == run.attempts &&
              config == run.config && serverEmitter == run.emitter
      ensures connectionsCache == old(connectionsCache) && clients == old(clients)
    {
      var cb;
      cb, attempts := StartMongoServer(0, launch);
      r := Settle(cb);
    }

    /** The current config, starting the server first when there is none. */
    method GetConfig(launch: int -> Attempt) returns (r: Settled<Config>, attempts: nat)
      requires Valid()
      modifies this
      ensures Valid()
      ensures old(config).Some? ==>
                r == Resolved(old(config).value) && attempts == 0 &&
                config == old(config) && serverEmitter == old(serverEmitter)
      ensures old(config).None? ==>
                var run := StartRun(old(config), old(serverEmitter), maxRetries, launch, 0);
                r == Settle(run.cb) && attempts == run.attempts &&
                config == run.config && serverEmitter == run.emitter
      ensures connectionsCache == old(connectionsCache) && clients == old(clients)
    {
      if config.None? {
        r, attempts := Start(launch);
      } else {
        r, attempts := Resolved(config.value), 0;
      }
    }

    /**
     * Opens a connection for `dbName`; `uri` is the URI the driver was asked
     * to connect to, `None` when it was not asked.
     */
    method AddConnection(dbName: string, connect: string -> ConnectResult)
      returns (r: Settled<Connection>, uri: Option<string>)
      requires Valid()
      modifies this
      ensures Valid()
      ensures config == old(config) && serverEmitter == old(serverEmitter)
      ensures old(config).None? ==>
                r == Rejected(ErrorObject(NotStartedMessage)) && uri == None &&
                connectionsCache == old(connectionsCache) && clients == old(clients)
      ensures old(config).Some? ==>
                uri == Some(ConnectionUri(old(config).value, dbName)) &&
                clients == old(clients) + [connect(uri.value).client] &&
                r == ConnectReply(dbName, connect(uri.value)) &&
                connectionsCache == if r.Resolved? then old(connectionsCache)[dbName := r.value]
                                    else old(connectionsCache)
    {
      if config.None? {
        // the executor goes on to destructure `null` and throws, but the promise is already rejected
        r, uri := Rejected(ErrorObject(NotStartedMessage)), None;
        return;
      }
      var target := ConnectionUri(config.value, dbName);
      uri := Some(target);
      var res := connect(target);
      clients := clients + [res.client];
      r := ConnectReply(dbName, res);
      if r.Resolved? {
        connectionsCache := connectionsCache[dbName := r.value];
      }
    }

    /**
     * The connection for `dbName` (default 'test'): the cached one if there is
     * one; otherwise the server is started when it has no config, and a new
     * connection is added. `attempts` counts launches, `uri` the connect call.
     */
    method GetConnection(dbName: Option<string>, launch: int -> Attempt, connect: string -> ConnectResult)
      returns (r: Settled<Connection>, attempts: nat, uri: Option<string>)
      requires Valid()
      modifies this
      ensures Valid()
      ensures var name := dbName.GetOr(DefaultDbName);
              name in old(connectionsCache) ==>
                r == Resolved(old(connectionsCache)[name]) && attempts == 0 && uri == None &&
                config == old(config) && serverEmitter == old(serverEmitter) &&
                connectionsCache == old(connectionsCache) && clients == old(clients)
      ensures var name := dbName.GetOr(DefaultDbName);
              name !in old(connectionsCache) && old(config).Some? ==>
                attempts == 0 && config == old(config) && serverEmitter == old(serverEmitter) &&
                uri == Some(ConnectionUri(old(config).value, name)) &&
                clients == old(clients) + [connect(uri.value).client] &&
                r == ConnectReply(name, connect(uri.value)) &&
                connectionsCache == if r.Resolved? then old(connectionsCache)[name := r.value]
                                    else old(connectionsCache)
      ensures var name := dbName.GetOr(DefaultDbName);
              var run := StartRun(old(config), old(serverEmitter), maxRetries, launch, 0);
              var started := Settle(run.cb);
              name !in old(connectionsCache) && old(config).None? ==>
                attempts == run.attempts && config == run.config && serverEmitter == run.emitter &&
                if started.Resolved? then
                  config == Some(started.value) &&
                  uri == Some(ConnectionUri(started.value, name)) &&
                  clients == old(clients) + [connect(uri.value).client] &&
                  r == ConnectReply(name, connect(uri.value)) &&
                  connectionsCache == if r.Resolved? then old(connectionsCache)[name := r.value]
                                      else old(connectionsCache)
                else
                  r == Unsettled(started) && uri == None &&
                  connectionsCache == old(connectionsCache) && clients == old(clients)
    {
      var name := dbName.GetOr(DefaultDbName);
      if name in connectionsCache {
        r, attempts, uri := Resolved(connectionsCache[name]), 0, None;
        return;
      }
      attempts := 0;
      if config.None? {
        var started;
        started, attempts := Start(launch);
        if !started.Resolved? {
          r, uri := Unsettled(started), None;
          return;
        }
        config := Some(started.value);
      }
      r, uri := AddConnection(name, connect);
    }

    /**
     * Signals the emitter, empties `clients` and closes every entry that has a
     * `close`; when every close succeeds, forgets the emitter, the config and
     * the cache. `signalled` is whether the shutdown event was emitted and
     * `calls` the clients whose `close` was called.
     */
    method ShutDown(close: Client -> CloseOutcome) returns (r: Settled<()>, signalled: bool, calls: seq<Client>)
      requires Valid()
      modifies this
      ensures Valid()
      ensures signalled == old(serverEmitter).Some?
      ensures var d := Drain(old(clients), close);
              calls == d.calls && clients == [] &&
              r == if d.threw then Pending
                   else if d.failure.Some? then Rejected(d.failure.value)
                   else Resolved(())
      ensures r.Resolved? ==> config == None && connectionsCache == map[] && serverEmitter == None
      ensures !r.Resolved? ==>
                config == old(config) && connectionsCache == old(connectionsCache) &&
                serverEmitter == old(serverEmitter)
    {
      signalled := serverEmitter.Some?;
      var pending := clients;
      clients := [];
      var failure: Option<ErrValue> := None;
      var threw := false;
      calls := [];
      var i := 0;
      while i < |pending| && !threw
        invariant 0 <= i <= |pending|
        invariant DrainResult(calls, failure, threw) == Drain(pending[..i], close)
        decreases |pending| - i
      {
        assert pending[..i + 1][..i] == pending[..i];
        match pending[i] {
          case None =>
            // reading `.close` of an undefined entry throws
            threw := true;
          case Some(c) =>
            if c.hasClose {
              calls := calls + [c];
              if failure.None? && close(c).CloseRejected? {
                failure := Some(close(c).reason);
              }
            }
        }
        i := i + 1;
      }
      if threw {
        DrainStopsAtThrow(pending, i, close);
        r := Pending;
      } else {
        assert pending[..i] == pending;
        if failure.Some? {
          r := Rejected(failure.value);
        } else {
          serverEmitter := None;
          config := None;
          connectionsCache := map[];
          r := Resolved(());
        }
      }
    }
  }
}
