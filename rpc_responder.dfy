/** The RPC responder of `src/consumer/rpc-consumer.ts`: a consumer of the queue
    "example_service" whose processor echoes each request's text back to its reply
    queue and then acknowledges the request. */
module RpcResponder {
  import opened Common
  import opened Amqp
  import opened Producer

  /** A call of `producer.publishToQueue(queue, payload, metadata)`. */
  datatype ReplyCall = ReplyCall(queue: string, payload: Value, metadata: Metadata)

  /** A request is answered only when both its reply queue and its correlation id are truthy. */
  predicate Answers(message: Message) {
    Truthy(message.properties.replyTo) && Truthy(message.properties.correlationId)
  }

  /** The reply payload: the object `{content}` wrapping the request's text. */
  function ReplyPayload(content: string): (payload: Value)
    ensures payload.Obj? && payload.fields.Keys == {"content"}
    ensures payload.fields["content"] == Str(content)
  {
    Obj(map["content" := Str(content)])
  }

  /** The reply metadata: the request's correlation id, no declaration, no reply queue. */
  function ReplyMetadata(correlationId: string): (metadata: Metadata)
    ensures metadata.skipAssert && !metadata.exclusive
    ensures metadata.correlationId == Some(correlationId) && metadata.replyTo.None?
  {
    Metadata(false, true, Some(correlationId), None)
  }

  /** The processor.  The reply's publish is started and not awaited, so its failure
      cannot stop the acknowledgement; `replyOps` are the channel calls that publish
      makes on the producer's channel.  `ackThrows` says whether `channel.ack` throws,
      the only call here that can throw: the message is then negatively acknowledged. */
  method Process(producer: RabbitMqProducer, stringify: Value -> Option<string>,
                 message: Message, ackThrows: bool)
    returns (reply: Option<ReplyCall>, replyOps: seq<ChannelOp>, effects: seq<ChannelOp>)
    ensures reply.Some? <==> Answers(message)
    ensures reply.Some? ==> reply.value == ReplyCall(message.properties.replyTo.value,
                                                      ReplyPayload(message.content),
                                                      ReplyMetadata(message.properties.correlationId.value))
    ensures reply.None? ==> replyOps == []
    ensures forall op | op in replyOps :: op.SendToQueue?
    ensures reply.Some? && producer.channel.Some? && stringify(ReplyPayload(message.content)).Some? ==>
      replyOps == [SendToQueue(message.properties.replyTo.value,
                               stringify(ReplyPayload(message.content)).value,
                               Properties(message.properties.correlationId, None))]
    ensures effects == (if ackThrows then [Ack(message), Nack(message)] else [Ack(message)])
  {
    var content := message.content;
    var replyTo, correlationId := message.properties.replyTo, message.properties.correlationId;
    reply, replyOps := None, [];
    if Truthy(replyTo) && Truthy(correlationId) {
      var call := ReplyCall(replyTo.value, ReplyPayload(content), ReplyMetadata(correlationId.value));
      reply := Some(call);
      var ignored;
      replyOps, ignored := producer.PublishToQueue(stringify, call.queue, call.payload, Some(call.metadata), None);
    }
    effects := [Ack(message)];
    if ackThrows {
      effects := effects + [Nack(message)];
    }
  }
}
