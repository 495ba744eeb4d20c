/** The values the mocked server stores, and the shapes of the answers its external collaborators give. */
module Entities {
  import opened JsValues

  /** The loopback address every launched server binds to. */
  const Localhost: string := "127.0.0.1"

  /** The `{host, port}` object kept in the server's `config` field. */
  datatype Config = Config(host: string, port: int)

  /** The own enumerable keys of a config object, as `Object.keys` lists them. */
  function ConfigKeys(c: Config): seq<string> {
    ["host", "port"]
  }

  /** An opaque reference to the event emitter the launcher returns. */
  type Handle = nat

  /**
   * What one launch attempt meets: either the free-port lookup rejects with
   * `reason`, or a port is found and the launcher returns `emitter` and later
   * calls back with `error`.
   */
  datatype Attempt =
    | LookupFailed(reason: ErrValue)
    | Launched(port: int, emitter: Option<Handle>, error: ErrValue)

  /** The arguments the start callback receives: an error and, unless the port lookup failed, the config. */
  datatype Callback = Callback(err: ErrValue, config: Option<Config>)

  /** A network client of the database driver; `hasClose` is whether it has a `close` method. */
  datatype Client = Client(id: nat, hasClose: bool)

  /** A database-scoped connection, obtained as `client.db(dbName)`. */
  datatype Connection = Db(client: Client, dbName: string)

  /** What the driver's connect callback receives: an error and possibly a client. */
  datatype ConnectResult = ConnectResult(error: ErrValue, client: Option<Client>)

  /** How the promise returned by one `client.close()` ends. */
  datatype CloseOutcome = Closed | CloseRejected(reason: ErrValue)
}
