/**
 * The client drain of `shutDown`: walk the list of opened clients in order,
 * call `close()` on every entry that has one, and settle once all of those
 * close promises have settled. An `undefined` entry (left by a connect that
 * delivered no client) makes reading `.close` throw, which ends the walk.
 */
module ClientDrain {
  import opened JsValues
  import opened Entities

  /** The close calls made, the first rejection among them (in list order), and whether the walk threw. */
  datatype DrainResult = DrainResult(calls: seq<Client>, failure: Option<ErrValue>, threw: bool)

  /** One step of the walk over entry `entry`. */
  function DrainStep(d: DrainResult, entry: Option<Client>, close: Client -> CloseOutcome): DrainResult {
    match entry
    case None => d.(threw := true)
    case Some(c) =>
      if !c.hasClose then d
      else d.(calls := d.calls + [c],
               failure := if d.failure.None? && close(c).CloseRejected? then Some(close(c).reason) else d.failure)
  }

  /** The walk over `entries`, one entry at a time from the front, stopping once it has thrown. */
  function Drain(entries: seq<Option<Client>>, close: Client -> CloseOutcome): DrainResult
  {
    if entries == [] then DrainResult([], None, false)
    else
      var d := Drain(entries[..|entries| - 1], close);
      if d.threw then d else DrainStep(d, entries[|entries| - 1], close)
  }

  /** Reference definition: the entries that have a `close` method, in order. */
  function Closable(clients: seq<Client>): seq<Client> {
    if clients == [] then []
    else (if clients[0].hasClose then [clients[0]] else []) + Closable(clients[1..])
  }

  /** Reference definition: the reason of the first close in `calls` that rejects. */
  function FirstRejection(calls: seq<Client>, close: Client -> CloseOutcome): Option<ErrValue> {
    if calls == [] then None
    else if close(calls[0]).CloseRejected? then Some(close(calls[0]).reason)
    else FirstRejection(calls[1..], close)
  }

  /** The clients of a list with no `undefined` entry. */
  function Present(entries: seq<Option<Client>>): seq<Client>
    requires forall i :: 0 <= i < |entries| ==> entries[i].Some?
  {
    seq(|entries|, i requires 0 <= i < |entries| => entries[i].value)
  }

  lemma {:induction false} ClosableAppend(s: seq<Client>, c: Client)
    ensures Closable(s + [c]) == Closable(s) + (if c.hasClose then [c] else [])
  {
    if s != [] {
      assert (s + [c])[1..] == s[1..] + [c];
      ClosableAppend(s[1..], c);
    }
  }

  lemma {:induction false} FirstRejectionAppend(s: seq<Client>, c: Client, close: Client -> CloseOutcome)
    ensures FirstRejection(s + [c], close) ==
            if FirstRejection(s, close).Some? then FirstRejection(s, close)
            else if close(c).CloseRejected? then Some(close(c).reason) else None
  {
    if s != [] {
      assert (s + [c])[1..] == s[1..] + [c];
      FirstRejectionAppend(s[1..], c, close);
    }
  }

  /**
   * Over a list with no `undefined` entry the walk does not throw, calls
   * `close` on exactly the entries that have it, in order, and rejects with
   * the first rejection among those calls.
   */
  lemma {:induction false} DrainClosesEveryClosable(entries: seq<Option<Client>>, close: Client -> CloseOutcome)
    requires forall i :: 0 <= i < |entries| ==> entries[i].Some?
    ensures var d := Drain(entries, close);
            !d.threw && d.calls == Closable(Present(entries)) &&
            d.failure == FirstRejection(Closable(Present(entries)), close)
  {
    if entries != [] {
      var init := entries[..|entries| - 1];
      var last := entries[|entries| - 1].value;
      DrainClosesEveryClosable(init, close);
      assert Present(entries) == Present(init) + [last];
      ClosableAppend(Present(init), last);
      if last.hasClose {
        FirstRejectionAppend(Closable(Present(init)), last, close);
      }
    }
  }

  /** The walk settles without a rejection exactly when every close call it made succeeded. */
  lemma {:induction false} DrainFailureIffSomeCloseRejected(entries: seq<Option<Client>>, close: Client -> CloseOutcome)
    ensures var d := Drain(entries, close);
            d.failure.None? <==> forall i :: 0 <= i < |d.calls| ==> close(d.calls[i]) == Closed
  {
    if entries != [] {
      var init := entries[..|entries| - 1];
      DrainFailureIffSomeCloseRejected(init, close);
      var d0 := Drain(init, close);
      if !d0.threw && entries[|entries| - 1].Some? && entries[|entries| - 1].value.hasClose {
        var c := entries[|entries| - 1].value;
        assert Drain(entries, close).calls == d0.calls + [c];
        assert forall i :: 0 <= i < |d0.calls| ==> (d0.calls + [c])[i] == d0.calls[i];
        assert (d0.calls + [c])[|d0.calls|] == c;
      }
    }
  }

  /** Once the walk has thrown on a prefix, the later entries change nothing: no further close is called. */
  lemma {:induction false} DrainStopsAtThrow(entries: seq<Option<Client>>, k: nat, close: Client -> CloseOutcome)
    requires k <= |entries|
    requires Drain(entries[..k], close).threw
    ensures Drain(entries, close) == Drain(entries[..k], close)
    decreases |entries| - k
  {
    if k < |entries| {
      assert entries[..k + 1][..k] == entries[..k];
      DrainStopsAtThrow(entries, k + 1, close);
    } else {
      assert entries[..k] == entries;
    }
  }

  /**
   * The walk throws exactly at the first `undefined` entry, after calling
   * `close` on the closable entries before it.
   */
  lemma DrainThrowsAtUndefined(entries: seq<Option<Client>>, k: nat, close: Client -> CloseOutcome)
    requires k < |entries| && entries[k] == None
    requires forall i :: 0 <= i < k ==> entries[i].Some?
    ensures Drain(entries, close).threw
    ensures Drain(entries, close).calls == Closable(Present(entries[..k]))
  {
    DrainClosesEveryClosable(entries[..k], close);
    assert entries[..k + 1][..k] == entries[..k];
    DrainStopsAtThrow(entries, k + 1, close);
  }
}
