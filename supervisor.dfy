/** The connection supervisor `RabbitConnection`: a retry loop with capped linear
    backoff, the close and error handlers that restart it, a graceful-close flag and
    a process-wide singleton.  Connection attempts are fed in as an oracle sequence
    (`None` for a failed attempt, `Some(c)` for a new connection `c`) and the waits
    are recorded in a log instead of being slept. */
module Supervisor {
  import opened Common
  import opened Amqp

  /** The cap of the retry counter. */
  const MAX_RETRY: nat := 30

  /** The delay unit in milliseconds. */
  const BASE_DELAY_MS: nat := 1000

  /** `retry = Math.min(++retry, 30)` of `src/config/rabbitmq.ts:37`. */
  function NextRetry(retry: nat): nat {
    if retry + 1 < MAX_RETRY then retry + 1 else MAX_RETRY
  }

  /** The counter after `n` more attempts, starting from `retry`. */
  function RetryAfter(retry: nat, n: nat): nat {
    if n == 0 then retry else NextRetry(RetryAfter(retry, n - 1))
  }

  /** The waits of `n` more attempts, starting from counter `retry`: each attempt,
      the successful one included, is followed by `1000 * retry` ms. */
  function RetryDelays(retry: nat, n: nat): (r: seq<nat>)
    ensures |r| == n
  {
    if n == 0 then [] else RetryDelays(retry, n - 1) + [BASE_DELAY_MS * RetryAfter(retry, n)]
  }

  /** After `n` attempts from a counter within the cap, the counter is `min(retry + n, 30)`. */
  lemma {:induction false} RetryAfterIsCapped(retry: nat, n: nat)
    requires retry <= MAX_RETRY
    ensures RetryAfter(retry, n) == Min(retry + n, MAX_RETRY)
  {
    if n > 0 {
      RetryAfterIsCapped(retry, n - 1);
    }
  }

  /** A fresh loop waits `1000 * min(k, 30)` ms after its k-th attempt. */
  lemma {:induction false} RetryDelayAt(n: nat, k: nat)
    requires 1 <= k <= n
    ensures RetryDelays(0, n)[k - 1] == BASE_DELAY_MS * Min(k, MAX_RETRY)
  {
    if k < n {
      RetryDelayAt(n - 1, k);
    } else {
      RetryAfterIsCapped(0, k);
    }
  }

  /** The waits never drop below 1 s nor exceed 30 s, and they never decrease. */
  lemma {:induction false} RetryDelaysBounded(retry: nat, n: nat)
    requires retry <= MAX_RETRY
    ensures forall i | 0 <= i < n :: BASE_DELAY_MS <= RetryDelays(retry, n)[i] <= BASE_DELAY_MS * MAX_RETRY
    ensures forall i, j | 0 <= i <= j < n :: RetryDelays(retry, n)[i] <= RetryDelays(retry, n)[j]
  {
    var r := RetryDelays(retry, n);
    forall i | 0 <= i < n
      ensures r[i] == BASE_DELAY_MS * Min(retry + i + 1, MAX_RETRY)
    {
      RetryDelayIs(retry, n, i);
    }
  }

  lemma {:induction false} RetryDelayIs(retry: nat, n: nat, i: nat)
    requires retry <= MAX_RETRY && i < n
    ensures RetryDelays(retry, n)[i] == BASE_DELAY_MS * Min(retry + i + 1, MAX_RETRY)
  {
    if i < n - 1 {
      RetryDelayIs(retry, n - 1, i);
    } else {
      RetryAfterIsCapped(retry, n);
    }
  }

  /** Counters compose: `a` attempts then `b` more is `a + b` attempts. */
  lemma {:induction false} RetryAfterCompose(retry: nat, a: nat, b: nat)
    ensures RetryAfter(retry, a + b) == RetryAfter(RetryAfter(retry, a), b)
  {
    if b > 0 {
      RetryAfterCompose(retry, a, b - 1);
    }
  }

  /** A loop fed its outcomes in two pieces (`Resume`) waits exactly as one fed them at once. */
  lemma {:induction false} RetryDelaysCompose(retry: nat, a: nat, b: nat)
    ensures RetryDelays(retry, a + b) == RetryDelays(retry, a) + RetryDelays(RetryAfter(retry, a), b)
  {
    if b > 0 {
      RetryDelaysCompose(retry, a, b - 1);
      RetryAfterCompose(retry, a, b);
    }
  }

  /** How many connect outcomes one retry loop consumes: it stops after the first
      success, or when the outcomes run out. */
  function Attempts(outcomes: seq<Option<ConnectionHandle>>): (n: nat)
    ensures n <= |outcomes|
    ensures outcomes != [] ==> n > 0
    ensures forall j | 0 <= j < n - 1 :: outcomes[j].None?
    ensures n < |outcomes| ==> outcomes[n - 1].Some?
  {
    if outcomes == [] then 0
    else if outcomes[0].Some? then 1
    else 1 + Attempts(outcomes[1..])
  }

  /** What the supervisor emits. `Error` is never emitted: that line of the close handler is commented out. */
  datatype Event = Connect(connection: ConnectionHandle) | GracefulClose | Error

  class RabbitConnection {
    const connectionString: string
    var gracefulClose: bool
    var connection: Option<ConnectionHandle>
    /** The `retry` counter of the running `setupConnection` loop. */
    var retry: nat
    /** A `setupConnection` loop is still waiting for more connect outcomes. */
    var retrying: bool
    /** Everything emitted, in order. */
    var events: seq<Event>
    /** Every backoff wait, in order. */
    var delays: seq<nat>
    /** The connections on which `close()` was called, in order. */
    var closed: seq<ConnectionHandle>

    ghost predicate Valid()
      reads this
    {
      && connectionString != ""
      && retry <= MAX_RETRY
      && Error !in events
      && (retrying ==> connection.None? && !gracefulClose)
      && (connection.Some? ==> Connect(connection.value) in events)
    }

    /** The state one `setupConnection` loop leaves when it started from counter `retry0`
        with `graceful0` as the flag, `delays0` and `events0` as the logs, and was fed `outcomes`:
        the loop runs only while no connection is held and no graceful close was requested,
        and the "connect" event is emitted only when it ends holding a connection. */
    ghost predicate LoopFinished(retry0: nat, graceful0: bool, delays0: seq<nat>, events0: seq<Event>,
                                 outcomes: seq<Option<ConnectionHandle>>, consumed: nat)
      reads this
    {
      && consumed == (if graceful0 then 0 else Attempts(outcomes))
      && gracefulClose == graceful0
      && connection == (if consumed == 0 then None else outcomes[consumed - 1])
      && retry == RetryAfter(retry0, consumed)
      && delays == delays0 + RetryDelays(retry0, consumed)
      && retrying == (connection.None? && !gracefulClose)
      && events == events0 + (if connection.Some? then [Connect(connection.value)] else [])
    }

    /** Called only through `ConnectionRegistry.Create`, which rejects an empty string. */
    constructor (connectionString: string, outcomes: seq<Option<ConnectionHandle>>)
      requires connectionString != ""
      ensures Valid() && this.connectionString == connectionString && closed == []
      ensures LoopFinished(0, false, [], [], outcomes, Attempts(outcomes))
    {
      this.connectionString := connectionString;
      gracefulClose := false;
      connection := None;
      retry := 0;
      retrying := false;
      events := [];
      delays := [];
      closed := [];
      new;
      var _ := SetupConnection(outcomes);
    }

    /** `status()`: whether a connection is held. */
    function Status(): (up: bool)
      reads this
      requires Valid()
      ensures up <==> GetConnection().Some?
    {
      connection.Some?
    }

    /** `getConnection()`: the held connection, which has been announced by a "connect" event. */
    function GetConnection(): (c: Option<ConnectionHandle>)
      reads this
      requires Valid()
      ensures c.Some? ==> Connect(c.value) in events
    {
      connection
    }

    /** `setupConnection()`: the counter restarts at 0, then the retry loop runs. */
    method SetupConnection(outcomes: seq<Option<ConnectionHandle>>) returns (consumed: nat)
      requires Valid() && connection.None?
      modifies this
      ensures Valid() && closed == old(closed)
      ensures LoopFinished(0, old(gracefulClose), old(delays), old(events), outcomes, consumed)
    {
      retry := 0;
      consumed := RunRetryLoop(outcomes);
    }

    /** Feeds further outcomes to a loop that ran out of them while still disconnected. */
    method Resume(outcomes: seq<Option<ConnectionHandle>>) returns (consumed: nat)
      requires Valid() && retrying
      modifies this
      ensures Valid() && closed == old(closed)
      ensures LoopFinished(old(retry), false, old(delays), old(events), outcomes, consumed)
    {
      consumed := RunRetryLoop(outcomes);
    }

    /** The `while` loop of `setupConnection` followed by `initEventListeners`. */
    method RunRetryLoop(outcomes: seq<Option<ConnectionHandle>>) returns (consumed: nat)
      requires Valid() && connection.None?
      modifies this
      ensures Valid() && closed == old(closed)
      ensures LoopFinished(old(retry), old(gracefulClose), old(delays), old(events), outcomes, consumed)
    {
      var i := 0;
      while connection.None? && !gracefulClose && i < |outcomes|
        invariant i <= |outcomes|
        invariant gracefulClose == old(gracefulClose) && (gracefulClose ==> i == 0)
        invariant connection.None? ==> Attempts(outcomes) == i + Attempts(outcomes[i..])
        invariant connection.Some? ==> i > 0 && Attempts(outcomes) == i
        invariant connection == (if i == 0 then None else outcomes[i - 1])
        invariant retry == RetryAfter(old(retry), i)
        invariant retry <= MAX_RETRY
        invariant delays == old(delays) + RetryDelays(old(retry), i)
        invariant events == old(events) && closed == old(closed)
      {
        assert outcomes[i..][1..] == outcomes[i + 1..];
        connection := outcomes[i];
        retry := NextRetry(retry);
        delays := delays + [BASE_DELAY_MS * retry];
        i := i + 1;
      }
      consumed := i;
      retrying := connection.None? && !gracefulClose;
      if !retrying {
        InitEventListeners();
      }
    }

    /** `initEventListeners()`: emits "connect" only when a connection is held. */
    method InitEventListeners()
      modifies this`events
      ensures events == old(events) + (if connection.Some? then [Connect(connection.value)] else [])
    {
      if connection.Some? {
        events := events + [Connect(connection.value)];
      }
    }

    /** The connection's "close" handler: the connection is dropped; a graceful close
        emits "gracefulClose" and stops, any other close restarts `setupConnection`. */
    method OnClose(outcomes: seq<Option<ConnectionHandle>>) returns (consumed: nat)
      requires Valid() && connection.Some?
      modifies this
      ensures Valid() && closed == old(closed) && gracefulClose == old(gracefulClose)
      ensures old(gracefulClose) ==>
        && connection.None? && consumed == 0 && !retrying
        && events == old(events) + [GracefulClose]
        && delays == old(delays) && retry == old(retry)
      ensures !old(gracefulClose) ==>
        LoopFinished(0, false, old(delays), old(events), outcomes, consumed)
    {
      connection := None;
      if gracefulClose {
        events := events + [GracefulClose];
        consumed := 0;
      } else {
        consumed := SetupConnection(outcomes);
      }
    }

    /** The connection's "error" handler: the connection is closed and dropped and
        `setupConnection` restarts whatever `gracefulClose` says (after a graceful
        close request, that restart does nothing). */
    method OnError(outcomes: seq<Option<ConnectionHandle>>) returns (consumed: nat)
      requires Valid() && connection.Some?
      modifies this
      ensures Valid() && closed == old(closed) + [old(connection).value]
      ensures LoopFinished(0, old(gracefulClose), old(delays), old(events), outcomes, consumed)
    {
      closed := closed + [connection.value];
      connection := None;
      consumed := SetupConnection(outcomes);
    }

    /** `closeConnection()`: when connected, marks the close as graceful and closes the
        connection (its "close" event arrives later, through `OnClose`); otherwise nothing. */
    method CloseConnection()
      requires Valid()
      modifies this
      ensures Valid()
      ensures old(connection).Some? ==> gracefulClose && closed == old(closed) + [old(connection).value]
      ensures old(connection).None? ==> gracefulClose == old(gracefulClose) && closed == old(closed)
      ensures connection == old(connection) && events == old(events) && delays == old(delays)
      ensures retry == old(retry) && retrying == old(retrying)
    {
      if connection.Some? {
        gracefulClose := true;
        closed := closed + [connection.value];
      }
    }
  }

  /** The static `instance` slot of `RabbitConnection`. */
  class ConnectionRegistry {
    var instance: RabbitConnection?

    constructor ()
      ensures instance == null
    {
      instance := null;
    }

    /** `new RabbitConnection(connectionString)`: throws on an empty string. */
    static method Create(connectionString: string, outcomes: seq<Option<ConnectionHandle>>)
      returns (r: Result<RabbitConnection, string>)
      ensures connectionString == "" ==> r == Err("connectionString is required")
      ensures connectionString != "" ==>
        && r.Ok? && fresh(r.value) && r.value.Valid()
        && r.value.connectionString == connectionString
        && r.value.LoopFinished(0, false, [], [], outcomes, Attempts(outcomes))
    {
      if connectionString == "" {
        return Err("connectionString is required");
      }
      var c := new RabbitConnection(connectionString, outcomes);
      r := Ok(c);
    }

    /** `getSingletonInstance(connectionString)`: the first instance created is returned
        for every later call, whatever string is passed; a failed creation stores nothing. */
    method GetSingletonInstance(connectionString: string, outcomes: seq<Option<ConnectionHandle>>)
      returns (r: Result<RabbitConnection, string>)
      modifies this
      ensures old(instance) != null ==> r == Ok(old(instance)) && instance == old(instance)
      ensures old(instance) == null && connectionString == "" ==>
        r == Err("connectionString is required") && instance == null
      ensures old(instance) == null && connectionString != "" ==>
        && r.Ok? && fresh(r.value) && instance == r.value && r.value.Valid()
        && r.value.connectionString == connectionString
    {
      if instance != null {
        return Ok(instance);
      }
      r := Create(connectionString, outcomes);
      if r.Ok? {
        instance := r.value;
      }
    }
  }
}
