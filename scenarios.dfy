/**
 * Call sequences on a fresh mocked server, each stating what the caller can
 * rely on afterwards; together they follow the lifecycle the server's own
 * test suite exercises.
 */
module Scenarios {
  import opened JsValues
  import opened Entities
  import opened Retry
  import opened Uri
  import opened ClientDrain
  import opened Server

  /** With the default retry count, four 'EADDRINUSE' failures and then a clean launch start the server. */
  method FourInUseThenLaunch(port: int) returns (r: Settled<Config>, attempts: nat)
    ensures r == Resolved(Config(Localhost, port)) && attempts == 5
  {
    var launch := (j: int) => if j < 4 then Launched(port, None, AddrInUse) else Launched(port, Some(0), Null);
    var s := new MongoDbMockedServer(None, None);
    r, attempts := s.Start(launch);
    InUseThenLaunched(None, None, s.maxRetries, launch, 0, 4);
  }

  /**
   * With a falsy `maxRetries` (hence 5), a launcher that always reports
   * 'EADDRINUSE' is tried six times; `start` rejects with that string, and the
   * server is left with a config all the same.
   */
  method AlwaysInUseRejects(port: int) returns (r: Settled<Config>, attempts: nat, configSet: bool)
    ensures r == Rejected(AddrInUse) && attempts == 6 && configSet
  {
    var launch := (j: int) => Launched(port, None, AddrInUse);
    var s := new MongoDbMockedServer(None, Some(0));
    r, attempts := s.Start(launch);
    AlwaysInUseExhausts(None, None, s.maxRetries, launch, 0);
    configSet := s.config.Some?;
  }

  /** A port lookup that fails on the first attempt leaves the configured `config` in place and passes its error on. */
  method LookupFailureKeepsConfig(initial: Config, e: ErrValue) returns (r: Settled<Config>, after: Option<Config>)
    ensures r == (if Truthy(e) then Rejected(e) else Pending) && after == Some(initial)
  {
    var launch := (j: int) => LookupFailed(e);
    var s := new MongoDbMockedServer(Some(initial), None);
    var tried;
    r, tried := s.Start(launch);
    after := s.config;
  }

  /** Once started, `getConnection` on an uncached name does not start again and connects to that server's URI. */
  method StartedServerSkipsStart(port: int, name: string, connect: string -> ConnectResult)
    returns (r: Settled<Connection>, attempts: nat, uri: Option<string>)
    ensures attempts == 0 && uri == Some(ConnectionUri(Config(Localhost, port), name))
    ensures r == ConnectReply(name, connect(uri.value))
    ensures r.Resolved? ==> r.value.dbName == name
  {
    var launch := (j: int) => Launched(port, Some(0), Null);
    var s := new MongoDbMockedServer(None, None);
    var started, _ := s.Start(launch);
    r, attempts, uri := s.GetConnection(Some(name), launch, connect);
  }

  /**
   * A second `getConnection` for a name whose first call resolved returns the
   * identical connection, without launching or connecting.
   */
  method CachedConnectionIsReused(name: Option<string>, launch: int -> Attempt, connect: string -> ConnectResult)
    returns (first: Settled<Connection>, second: Settled<Connection>, attempts: nat, uri: Option<string>)
    ensures first.Resolved? ==> second == first && attempts == 0 && uri == None
    ensures first.Resolved? ==> first.value.dbName == name.GetOr(DefaultDbName)
  {
    var s := new MongoDbMockedServer(None, None);
    var tried, firstUri;
    first, tried, firstUri := s.GetConnection(name, launch, connect);
    second, attempts, uri := s.GetConnection(name, launch, connect);
  }

  /**
   * A start that ran out of retries still assigned `config`, so a following
   * `getConnection` does not try to start again and connects to the port of
   * the last failed launch.
   */
  method FailedStartStillSkipsStart(port: int, name: string, connect: string -> ConnectResult)
    returns (started: Settled<Config>, attempts: nat, uri: Option<string>)
    ensures started == Rejected(AddrInUse)
    ensures attempts == 0 && uri == Some(ConnectionUri(Config(Localhost, port), name))
  {
    var launch := (j: int) => Launched(port, None, AddrInUse);
    var s := new MongoDbMockedServer(None, None);
    var tried;
    started, tried := s.Start(launch);
    AlwaysInUseExhausts(None, None, s.maxRetries, launch, 0);
    var r;
    r, attempts, uri := s.GetConnection(Some(name), launch, connect);
  }

  /** Shutting down a server that was never started signals nothing, closes nothing and resolves. */
  method IdleShutDown(close: Client -> CloseOutcome) returns (r: Settled<()>, signalled: bool, calls: seq<Client>, cleared: bool)
    ensures r == Resolved(()) && !signalled && calls == [] && cleared
  {
    var s := new MongoDbMockedServer(None, None);
    r, signalled, calls := s.ShutDown(close);
    cleared := s.config == None && s.connectionsCache == map[] && s.clients == [];
  }

  /**
   * After a resolved `getConnection` and a shutdown whose closes all succeed,
   * a second shutdown closes nothing, and the cache no longer holds the name,
   * so asking for it again starts a fresh server and opens a fresh connection.
   */
  method ShutDownForgetsConnections(name: string, launch: int -> Attempt, connect: string -> ConnectResult)
    returns (first: Settled<Connection>, shut: Settled<()>, calls: seq<Client>, secondCalls: seq<Client>,
             again: Settled<Connection>, attempts: nat, uri: Option<string>)
    ensures first.Resolved? ==> shut == Resolved(())
    ensures first.Resolved? ==> calls == if first.value.client.hasClose then [first.value.client] else []
    ensures secondCalls == []
    ensures first.Resolved? ==> attempts >= 1 && uri.Some? == Settle(StartRun(None, None, DefaultMaxRetries, launch, 0).cb).Resolved?
  {
    var s := new MongoDbMockedServer(None, None);
    var tried, firstUri;
    first, tried, firstUri := s.GetConnection(Some(name), launch, connect);
    var closeAll := (c: Client) => Closed;
    var signalled, signalledAgain, shutAgain;
    shut, signalled, calls := s.ShutDown(closeAll);
    shutAgain, signalledAgain, secondCalls := s.ShutDown(closeAll);
    again, attempts, uri := s.GetConnection(Some(name), launch, connect);
  }
}
