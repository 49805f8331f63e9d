/** The queue consumer of `src/consumer/index.ts`: the selection of consumers from the
    command-line argument, the set-up each "connect" event performs, the shutdown gate
    on deliveries, `stop`, `queueStatus` and the signal handlers.  Channel calls are
    returned as operation lists; the processor's outcome is an input. */
module ConsumerLifecycle {
  import opened Common
  import opened Amqp

  /** An `IConsumer` descriptor: its queue, its batch (prefetch) size and whether it has a `clean` callback. */
  datatype ConsumerSpec = ConsumerSpec(queue: string, batch: int, hasClean: bool)

  /** The demo consumer of `src/consumer/example.ts`. */
  const EXAMPLE_CONSUMER := ConsumerSpec("example_queue", 1, false)

  /** The message and channel one processor invocation receives. */
  datatype Invocation = Invocation(message: Message, channel: ChannelHandle)

  /** The `{messageCount, consumerCount}` a queue probe reports. */
  datatype QueueCounts = QueueCounts(messageCount: nat, consumerCount: nat)

  /** The `switch (args?.consumer)`: only the string "example" selects a consumer. */
  function SelectConsumers(arg: Value): (specs: seq<ConsumerSpec>)
    ensures |specs| <= 1
    ensures specs != [] <==> arg == Str("example")
    ensures specs != [] ==> specs[0] == EXAMPLE_CONSUMER
  {
    match arg
    case Str(s) => if s == "example" then [EXAMPLE_CONSUMER] else []
    case _ => []
  }

  /** The channel set-up a "connect" handler performs once its channel exists. */
  function ConnectOps(queue: string, batch: int): (ops: seq<ChannelOp>)
    ensures |ops| == 3 && ops[0].Prefetch? && ops[1].AssertQueue? && ops[2].Consume?
    ensures ops[0].count == batch
    ensures ops[1].queue == queue && ops[1].options.durable && !ops[1].options.exclusive
    ensures ops[2].queue == queue && !ops[2].noAck
  {
    [Prefetch(batch), AssertQueue(queue, DURABLE), Consume(queue, false)]
  }

  class Consumer {
    const queue: string
    const bufferSize: int
    const hasClean: bool
    var connection: Option<ConnectionHandle>
    var channel: Option<ChannelHandle>
    var shutdown: bool
    /** How many times the `clean` callback has been invoked. */
    var cleanCalls: nat
    /** The channels this consumer consumes from and watches for "error". */
    var started: set<ChannelHandle>

    ghost predicate Valid()
      reads this
    {
      && (started != {} ==> channel.Some?)
      && (channel.Some? ==> channel.value in started)
      && (!hasClean ==> cleanCalls == 0)
    }

    constructor (spec: ConsumerSpec)
      ensures Valid() && queue == spec.queue && bufferSize == spec.batch && hasClean == spec.hasClean
      ensures connection.None? && channel.None? && !shutdown && cleanCalls == 0 && started == {}
    {
      queue := spec.queue;
      bufferSize := spec.batch;
      hasClean := spec.hasClean;
      connection := None;
      channel := None;
      shutdown := false;
      cleanCalls := 0;
      started := {};
    }

    /** The "connect" handler: keeps the connection and, when `createChannel` resolves
        with `created`, replaces the channel, sets prefetch to the batch size, declares
        the queue durable and consumes it with manual acknowledgement.  When
        `createChannel` rejects (`created == None`) the handler stops there. */
    method OnConnect(conn: ConnectionHandle, created: Option<ChannelHandle>) returns (ops: seq<ChannelOp>)
      requires Valid()
      modifies this
      ensures Valid() && connection == Some(conn)
      ensures created.Some? ==> channel == created && started == old(started) + {created.value}
      ensures created.Some? ==> ops == ConnectOps(queue, bufferSize)
      ensures created.None? ==> channel == old(channel) && started == old(started) && ops == []
      ensures shutdown == old(shutdown) && cleanCalls == old(cleanCalls)
    {
      connection := Some(conn);
      ops := [];
      if created.Some? {
        channel := created;
        ops := ops + [Prefetch(bufferSize)];
        ops := ops + [AssertQueue(queue, DURABLE)];
        var consumeOps := Start(created.value);
        ops := ops + consumeOps;
      }
    }

    /** `start()`: consumes the queue without automatic acknowledgement and watches the channel. */
    method Start(ch: ChannelHandle) returns (ops: seq<ChannelOp>)
      requires channel == Some(ch)
      modifies this`started
      ensures started == old(started) + {ch}
      ensures ops == [Consume(queue, false)]
    {
      started := started + {ch};
      ops := [Consume(queue, false)];
    }

    /** The delivery callback: after `stop()` the message is ignored (no processor call,
        no acknowledgement); otherwise the processor receives it with the current channel,
        and an error it throws (`processorError`) is rethrown. */
    method Deliver(message: Message, processorError: Option<string>)
      returns (invoked: Option<Invocation>, r: Outcome<string>)
      requires Valid() && started != {}
      ensures shutdown ==> invoked.None? && r.Pass?
      ensures !shutdown ==> invoked == Some(Invocation(message, channel.value))
      ensures !shutdown && processorError.Some? ==> r == Fail(processorError.value)
      ensures processorError.None? ==> r.Pass?
    {
      if shutdown {
        return None, Pass;
      }
      invoked := Some(Invocation(message, channel.value));
      r := if processorError.Some? then Fail(processorError.value) else Pass;
    }

    /** `stop()`: sets the shutdown flag and calls `clean` when there is one, on every call. */
    method Stop()
      requires Valid()
      modifies this`shutdown, this`cleanCalls
      ensures Valid() && shutdown
      ensures cleanCalls == old(cleanCalls) + (if hasClean then 1 else 0)
    {
      shutdown := true;
      if hasClean {
        cleanCalls := cleanCalls + 1;
      }
    }

    /** The "error" handler of a started channel. */
    method OnChannelError(ch: ChannelHandle)
      requires Valid() && ch in started
      modifies this`shutdown, this`cleanCalls
      ensures Valid() && shutdown
      ensures cleanCalls == old(cleanCalls) + (if hasClean then 1 else 0)
    {
      Stop();
    }

    /** The "error" handler on the connection supervisor (which never emits "error"). */
    method OnServiceError()
      requires Valid()
      modifies this`shutdown, this`cleanCalls
      ensures Valid() && shutdown
      ensures cleanCalls == old(cleanCalls) + (if hasClean then 1 else 0)
    {
      Stop();
    }

    /** `queueStatus()`: zero counts without a channel or when the probe (`probe == None`)
        rejects; the probe's counts otherwise. */
    method QueueStatus(probe: Option<QueueCounts>) returns (ops: seq<ChannelOp>, status: QueueCounts)
      ensures channel.None? ==> ops == [] && status == QueueCounts(0, 0)
      ensures channel.Some? ==> ops == [AssertQueue(queue, DURABLE)]
      ensures channel.Some? && probe.Some? ==> status == probe.value
      ensures probe.None? ==> status == QueueCounts(0, 0)
    {
      status := QueueCounts(0, 0);
      ops := [];
      if channel.Some? {
        ops := [AssertQueue(queue, DURABLE)];
        status := probe.GetOr(QueueCounts(0, 0));
      }
    }
  }

  /** Distinct objects, as `CONSUMERS.map(c => new Consumer(c))` yields. */
  ghost predicate Distinct(consumers: seq<Consumer>) {
    forall i, j | 0 <= i < j < |consumers| :: consumers[i] != consumers[j]
  }

  /** A consumer as constructed: no connection, no channel, not shut down, no `clean`
      call and no channel started. */
  ghost predicate Idle(c: Consumer)
    reads c
  {
    c.connection.None? && c.channel.None? && !c.shutdown && c.cleanCalls == 0 && c.started == {}
  }

  /** Module start-up: one fresh consumer per descriptor the argument selects. */
  method CreateConsumers(arg: Value) returns (consumers: seq<Consumer>)
    ensures |consumers| == |SelectConsumers(arg)| && Distinct(consumers)
    ensures forall i | 0 <= i < |consumers| ::
      && fresh(consumers[i]) && consumers[i].Valid() && Idle(consumers[i])
      && consumers[i].queue == SelectConsumers(arg)[i].queue
      && consumers[i].bufferSize == SelectConsumers(arg)[i].batch
      && consumers[i].hasClean == SelectConsumers(arg)[i].hasClean
  {
    var specs := SelectConsumers(arg);
    consumers := [];
    for i := 0 to |specs|
      invariant |consumers| == i && Distinct(consumers)
      invariant forall k | 0 <= k < i ::
        && fresh(consumers[k]) && consumers[k].Valid() && Idle(consumers[k])
        && consumers[k].queue == specs[k].queue && consumers[k].bufferSize == specs[k].batch
        && consumers[k].hasClean == specs[k].hasClean
    {
      var c := new Consumer(specs[i]);
      consumers := consumers + [c];
    }
  }

  /** The SIGINT and SIGTERM handlers: `stop()` on every consumer. */
  method OnSignal(consumers: seq<Consumer>)
    requires Distinct(consumers)
    requires forall c | c in consumers :: c.Valid()
    modifies set c | c in consumers
    ensures forall i | 0 <= i < |consumers| ::
      && consumers[i].Valid() && consumers[i].shutdown
      && consumers[i].cleanCalls == old(consumers[i].cleanCalls) + (if consumers[i].hasClean then 1 else 0)
      && consumers[i].connection == old(consumers[i].connection)
      && consumers[i].channel == old(consumers[i].channel)
      && consumers[i].started == old(consumers[i].started)
  {
    for i := 0 to |consumers|
      invariant forall k | 0 <= k < i ::
        && consumers[k].Valid() && consumers[k].shutdown
        && consumers[k].cleanCalls == old(consumers[k].cleanCalls) + (if consumers[k].hasClean then 1 else 0)
      invariant forall k | i <= k < |consumers| ::
        && consumers[k].Valid() && consumers[k].cleanCalls == old(consumers[k].cleanCalls)
        && consumers[k].shutdown == old(consumers[k].shutdown)
      invariant forall k | 0 <= k < |consumers| ::
        && consumers[k].connection == old(consumers[k].connection)
        && consumers[k].channel == old(consumers[k].channel)
        && consumers[k].started == old(consumers[k].started)
    {
      consumers[i].Stop();
    }
  }

  /** Start-up followed by SIGINT: every selected consumer is shut down, with no channel,
      and none of them has a `clean` callback to call, so no clean call happens. */
  method StartThenSignal(arg: Value) returns (consumers: seq<Consumer>)
    ensures |consumers| == |SelectConsumers(arg)|
    ensures forall i | 0 <= i < |consumers| ::
      && consumers[i].shutdown && consumers[i].cleanCalls == 0
      && consumers[i].channel.None? && consumers[i].started == {}
  {
    consumers := CreateConsumers(arg);
    OnSignal(consumers);
  }
}
