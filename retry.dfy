/**
 * The start sequence of the mocked server: look up a free port, launch the
 * server on it, and launch again with a freshly looked-up port while the
 * launcher reports 'EADDRINUSE' and the retry counter is below `maxRetries`.
 */
module Retry {
  import opened JsValues
  import opened Entities

  /** The observable effect of a start sequence on the server. */
  datatype Run = Run(cb: Callback, config: Option<Config>, emitter: Option<Handle>, attempts: nat)

  /** How many more retries the counter `retries` still allows. */
  function RetryBudget(maxRetries: int, retries: int): nat {
    if retries < maxRetries then maxRetries - retries else 0
  }

  /** Whether attempt `a`, made with counter `retries`, is followed by another attempt. */
  predicate Retries(a: Attempt, retries: int, maxRetries: int) {
    a.Launched? && a.error == AddrInUse && retries < maxRetries
  }

  /**
   * The start sequence from counter `retries`, given the current `config` and
   * emitter and what each attempt meets (`launch(j)` for counter `j`).
   * Every attempt whose port lookup succeeds replaces the emitter; only the
   * final launch assigns `config`, whether or not it reports an error.
   */
  function StartRun(config: Option<Config>, emitter: Option<Handle>, maxRetries: int,
                    launch: int -> Attempt, retries: int): (r: Run)
    ensures r.attempts >= 1
    ensures r.cb.config.Some? ==> r.config == r.cb.config
    ensures r.cb.config.None? ==> r.config == config
    decreases RetryBudget(maxRetries, retries)
  {
    match launch(retries)
    case LookupFailed(e) => Run(Callback(e, None), config, emitter, 1)
    case Launched(port, em, error) =>
      if error == AddrInUse && retries < maxRetries then
        var rest := StartRun(config, em, maxRetries, launch, retries + 1);
        rest.(attempts := rest.attempts + 1)
      else
        var c := Config(Localhost, port);
        Run(Callback(error, Some(c)), Some(c), em, 1)
  }

  /** The emitter in place when attempt `last` is made, starting from `emitter` at counter `first`. */
  function EmitterBefore(emitter: Option<Handle>, launch: int -> Attempt, first: int, last: int): Option<Handle> {
    if last != first && launch(last - 1).Launched? then launch(last - 1).emitter else emitter
  }

  /** A start sequence launches at most `maxRetries - retries + 1` times (`maxRetries + 1` from a zero counter). */
  lemma {:induction false} StartRunAttemptsBound(config: Option<Config>, emitter: Option<Handle>, maxRetries: int,
                                                 launch: int -> Attempt, retries: int)
    ensures StartRun(config, emitter, maxRetries, launch, retries).attempts <= RetryBudget(maxRetries, retries) + 1
    decreases RetryBudget(maxRetries, retries)
  {
    if Retries(launch(retries), retries, maxRetries) {
      StartRunAttemptsBound(config, launch(retries).emitter, maxRetries, launch, retries + 1);
    }
  }

  /**
   * A start sequence retries exactly while the attempt met 'EADDRINUSE' below
   * the retry bound, stops at the first attempt that does not, and the final
   * attempt alone decides what the callback receives and what `config` and the
   * emitter become: on a failed port lookup the callback gets that error and
   * `config` is left as it was; otherwise the callback gets the launcher's
   * error unchanged and `config` becomes the final attempt's `{host, port}`.
   */
  lemma {:induction false} StartRunStopsAtFirstSettling(config: Option<Config>, emitter: Option<Handle>, maxRetries: int,
                                                        launch: int -> Attempt, retries: int)
    ensures var run := StartRun(config, emitter, maxRetries, launch, retries);
            var last := retries + run.attempts - 1;
            (forall j :: retries <= j < last ==> Retries(launch(j), j, maxRetries)) &&
            !Retries(launch(last), last, maxRetries) &&
            match launch(last)
            case LookupFailed(e) =>
              run.cb == Callback(e, None) && run.config == config &&
              run.emitter == EmitterBefore(emitter, launch, retries, last)
            case Launched(port, em, error) =>
              run.cb == Callback(error, Some(Config(Localhost, port))) &&
              run.config == Some(Config(Localhost, port)) && run.emitter == em
    decreases RetryBudget(maxRetries, retries)
  {
    if Retries(launch(retries), retries, maxRetries) {
      var em := launch(retries).emitter;
      StartRunStopsAtFirstSettling(config, em, maxRetries, launch, retries + 1);
      var rest := StartRun(config, em, maxRetries, launch, retries + 1);
      var last := retries + 1 + rest.attempts - 1;
      assert last > retries;
      if last == retries + 1 {
        assert EmitterBefore(em, launch, retries + 1, last) == EmitterBefore(emitter, launch, retries, last);
      }
    }
  }

  /**
   * `k` 'EADDRINUSE' failures in a row, all within the retry bound, are skipped:
   * the sequence continues as if it had started at counter `retries + k` with
   * the last of those attempts' emitter, plus `k` attempts.
   */
  lemma {:induction false} SkipInUse(config: Option<Config>, emitter: Option<Handle>, maxRetries: int,
                                     launch: int -> Attempt, retries: int, k: nat)
    requires retries + k <= maxRetries
    requires forall j :: retries <= j < retries + k ==> launch(j).Launched? && launch(j).error == AddrInUse
    ensures var rest := StartRun(config, EmitterBefore(emitter, launch, retries, retries + k), maxRetries, launch, retries + k);
            StartRun(config, emitter, maxRetries, launch, retries) == rest.(attempts := rest.attempts + k)
    decreases k
  {
    if k > 0 {
      assert launch(retries).Launched? && launch(retries).error == AddrInUse;
      SkipInUse(config, launch(retries).emitter, maxRetries, launch, retries + 1, k - 1);
      if k == 1 {
        assert EmitterBefore(launch(retries).emitter, launch, retries + 1, retries + k) == launch(retries).emitter;
      }
    }
  }

  /**
   * When every attempt from counter `retries` up to and including `maxRetries`
   * meets 'EADDRINUSE', the sequence makes exactly `maxRetries - retries + 1`
   * attempts and the callback receives 'EADDRINUSE' together with the last
   * attempt's config.
   */
  lemma AlwaysInUseExhausts(config: Option<Config>, emitter: Option<Handle>, maxRetries: int,
                            launch: int -> Attempt, retries: int)
    requires retries <= maxRetries
    requires forall j :: retries <= j <= maxRetries ==> launch(j).Launched? && launch(j).error == AddrInUse
    ensures var run := StartRun(config, emitter, maxRetries, launch, retries);
            run.attempts == maxRetries - retries + 1 &&
            run.cb == Callback(AddrInUse, Some(Config(Localhost, launch(maxRetries).port))) &&
            run.config == Some(Config(Localhost, launch(maxRetries).port))
  {
    SkipInUse(config, emitter, maxRetries, launch, retries, maxRetries - retries);
  }

  /**
   * `k` 'EADDRINUSE' failures within the retry bound followed by a launch that
   * reports no error: the sequence makes `k + 1` attempts and the callback gets
   * no error and the successful attempt's config.
   */
  lemma InUseThenLaunched(config: Option<Config>, emitter: Option<Handle>, maxRetries: int,
                          launch: int -> Attempt, retries: int, k: nat)
    requires retries + k <= maxRetries
    requires forall j :: retries <= j < retries + k ==> launch(j).Launched? && launch(j).error == AddrInUse
    requires launch(retries + k).Launched? && launch(retries + k).error == Null
    ensures var run := StartRun(config, emitter, maxRetries, launch, retries);
            run.attempts == k + 1 &&
            run.cb == Callback(Null, Some(Config(Localhost, launch(retries + k).port))) &&
            run.emitter == launch(retries + k).emitter
  {
    SkipInUse(config, emitter, maxRetries, launch, retries, k);
  }

  const EmptyConfigMessage: string := "Received empty configuration object"

  /**
   * How the promise of `start` settles once the start callback receives `cb`.
   * A falsy error with no config (a port lookup that rejected with a falsy
   * value) makes `Object.keys(undefined)` throw inside a promise handler no
   * one observes, so the promise never settles. The empty-config rejection is
   * never reached, because every config has the keys `host` and `port`.
   */
  function Settle(cb: Callback): (r: Settled<Config>)
    ensures r.Rejected? ==> Truthy(cb.err) && r.reason == cb.err
    ensures r.Resolved? <==> !Truthy(cb.err) && cb.config.Some?
    ensures r.Resolved? ==> r.value == cb.config.value
    ensures r.Pending? <==> !Truthy(cb.err) && cb.config.None?
  {
    if Truthy(cb.err) then Rejected(cb.err)
    else if cb.config.None? then Pending
    else if |ConfigKeys(cb.config.value)| < 1 then Rejected(ErrorObject(EmptyConfigMessage))
    else Resolved(cb.config.value)
  }
}
