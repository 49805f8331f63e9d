/** The producer of `src/config/producer.ts`: payload serialisation, `publish`,
    `publishToQueue`, the "connect" handler that replaces the channel, and the
    singleton.  `JSON.stringify` is the parameter `stringify` (`None` where it yields
    `undefined`); the outcome of `assertQueue` is an input; the channel calls a
    publish makes are returned as an operation list. */
module Producer {
  import opened Common
  import opened Amqp

  /** The `metadata` argument of `publishToQueue`, with absent flags as `false`. */
  datatype Metadata = Metadata(exclusive: bool, skipAssert: bool,
                               correlationId: Option<string>, replyTo: Option<string>)

  /** Why a publish throws: the payload has no text form (`Buffer.from(undefined)`),
      there is no channel yet, or the queue declaration rejected. */
  datatype PublishError = NotSerializable | NoChannel | DeclareFailed(reason: string)

  /** The text sent for a payload: strings pass through unchanged, anything else
      goes through `JSON.stringify`. */
  function Serialize(stringify: Value -> Option<string>, payload: Value): (text: Option<string>)
    ensures payload.Str? ==> text == Some(payload.s)
    ensures !payload.Str? ==> text == stringify(payload)
  {
    match payload
    case Str(s) => Some(s)
    case _ => stringify(payload)
  }

  /** The `assertQueue` options of `publishToQueue`: always durable, exclusive only
      when the metadata says so. */
  function DeclareOptions(metadata: Option<Metadata>): (options: QueueOptions)
    ensures options.durable
    ensures options.exclusive <==> metadata.Some? && metadata.value.exclusive
  {
    QueueOptions(true, metadata.Some? && metadata.value.exclusive)
  }

  /** The properties `sendToQueue` carries: exactly the metadata's correlation id and reply queue. */
  function SendProperties(metadata: Option<Metadata>): (props: Properties)
    ensures metadata.None? ==> props == Properties(None, None)
    ensures metadata.Some? ==>
      props.correlationId == metadata.value.correlationId && props.replyTo == metadata.value.replyTo
  {
    if metadata.Some? then Properties(metadata.value.correlationId, metadata.value.replyTo)
    else Properties(None, None)
  }

  /** Whether `publishToQueue` declares the queue first. */
  predicate Declares(metadata: Option<Metadata>) {
    !(metadata.Some? && metadata.value.skipAssert)
  }

  /** The declaration `publishToQueue` issues before sending: none with `skipAssert`. */
  function DeclareOps(queueName: string, metadata: Option<Metadata>): (ops: seq<ChannelOp>)
    ensures ops == [] <==> !Declares(metadata)
    ensures ops != [] ==> ops == [AssertQueue(queueName, DeclareOptions(metadata))]
  {
    if Declares(metadata) then [AssertQueue(queueName, DeclareOptions(metadata))] else []
  }

  class RabbitMqProducer {
    /** The module-level `rabbitChannel`, unset until the first "connect". */
    var channel: Option<ChannelHandle>
    /** The module-level `rabbitConnection`. */
    var connection: Option<ConnectionHandle>

    constructor ()
      ensures channel.None? && connection.None?
    {
      channel := None;
      connection := None;
    }

    /** The "connect" handler: keeps the connection and, once `createChannel` resolves
        with `created`, replaces the channel; a rejected `createChannel` leaves it. */
    method OnConnect(conn: ConnectionHandle, created: Option<ChannelHandle>)
      modifies this
      ensures connection == Some(conn)
      ensures channel == (if created.Some? then created else old(channel))
    {
      connection := Some(conn);
      if created.Some? {
        channel := created;
      }
    }

    /** `publish(exchange, content, routingKey = "default")`: publishes the serialised
        content on the current channel; throws when there is no text form or no channel. */
    method Publish(stringify: Value -> Option<string>, exchange: string, content: Value,
                   routingKey: Option<string>)
      returns (ops: seq<ChannelOp>, r: Outcome<PublishError>)
      ensures r.Pass? <==> Serialize(stringify, content).Some? && channel.Some?
      ensures Serialize(stringify, content).None? ==> r == Fail(NotSerializable)
      ensures Serialize(stringify, content).Some? && channel.None? ==> r == Fail(NoChannel)
      ensures r.Fail? ==> ops == []
      ensures r.Pass? ==>
        ops == [ChannelOp.Publish(exchange, routingKey.GetOr("default"), Serialize(stringify, content).value)]
    {
      var text := Serialize(stringify, content);
      if text.None? {
        return [], Fail(NotSerializable);
      }
      if channel.None? {
        return [], Fail(NoChannel);
      }
      ops := [ChannelOp.Publish(exchange, routingKey.GetOr("default"), text.value)];
      r := Pass;
    }

    /** `publishToQueue(queueName, payload, metadata)`: serialises the payload, declares
        the queue (durable, exclusive when asked) unless `skipAssert`, waits for the
        declaration, then sends with the metadata's correlation id and reply queue.
        `declareError` is the declaration's rejection, if it rejects; then nothing is sent. */
    method PublishToQueue(stringify: Value -> Option<string>, queueName: string, payload: Value,
                          metadata: Option<Metadata>, declareError: Option<string>)
      returns (ops: seq<ChannelOp>, r: Outcome<PublishError>)
      ensures Serialize(stringify, payload).None? ==> r == Fail(NotSerializable) && ops == []
      ensures Serialize(stringify, payload).Some? && channel.None? ==> r == Fail(NoChannel) && ops == []
      ensures !Declares(metadata) ==> AssertQueue(queueName, DeclareOptions(metadata)) !in ops
      ensures r.Pass? <==>
        Serialize(stringify, payload).Some? && channel.Some? && (Declares(metadata) ==> declareError.None?)
      ensures Serialize(stringify, payload).Some? && channel.Some? && Declares(metadata) && declareError.Some? ==>
        r == Fail(DeclareFailed(declareError.value)) && ops == DeclareOps(queueName, metadata)
      ensures r.Fail? ==> forall op | op in ops :: !op.SendToQueue?
      ensures r.Pass? ==>
        ops == DeclareOps(queueName, metadata) + [SendToQueue(queueName, Serialize(stringify, payload).value, SendProperties(metadata))]
    {
      var text := Serialize(stringify, payload);
      if text.None? {
        return [], Fail(NotSerializable);
      }
      var options := DeclareOptions(metadata);
      ops := [];
      if channel.None? {
        return [], Fail(NoChannel);
      }
      if Declares(metadata) {
        ops := [AssertQueue(queueName, options)];
        if declareError.Some? {
          return ops, Fail(DeclareFailed(declareError.value));
        }
      }
      ops := ops + [SendToQueue(queueName, text.value, SendProperties(metadata))];
      r := Pass;
    }
  }

  /** The static `instance` slot of `RabbitMqProducer`. */
  class ProducerRegistry {
    var instance: RabbitMqProducer?

    constructor ()
      ensures instance == null
    {
      instance := null;
    }

    /** `getSingletonInstance()`: creates the producer on the first call and returns
        that same object on every later call. */
    method GetSingletonInstance() returns (p: RabbitMqProducer)
      modifies this
      ensures instance == p
      ensures old(instance) != null ==> p == old(instance)
      ensures old(instance) == null ==> fresh(p) && p.channel.None?
    {
      if instance == null {
        instance := new RabbitMqProducer();
      }
      p := instance;
    }
  }

  /** Two calls of `getSingletonInstance()` return one and the same producer. */
  method SingletonIsShared(registry: ProducerRegistry) returns (first: RabbitMqProducer, second: RabbitMqProducer)
    modifies registry
    ensures first == second
  {
    first := registry.GetSingletonInstance();
    second := registry.GetSingletonInstance();
  }
}
