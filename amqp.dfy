/** The part of the AMQP client library the modelled code talks to: connection and
    channel handles, delivered messages and the operations issued on a channel. */
module Amqp {
  import opened Common

  /** Identity of an open broker connection. */
  type ConnectionHandle = nat

  /** Identity of an open channel. */
  type ChannelHandle = nat

  /** The message properties the code reads and writes. */
  datatype Properties = Properties(correlationId: Option<string>, replyTo: Option<string>)

  /** A delivered message; `content` is the body already decoded as text. */
  datatype Message = Message(content: string, properties: Properties)

  /** The options of `assertQueue`. */
  datatype QueueOptions = QueueOptions(durable: bool, exclusive: bool)

  const DURABLE := QueueOptions(true, false)

  /** One call issued on a channel. */
  datatype ChannelOp =
    | Prefetch(count: int)
    | AssertQueue(queue: string, options: QueueOptions)
    | Consume(queue: string, noAck: bool)
    | Publish(exchange: string, routingKey: string, content: string)
    | SendToQueue(queue: string, content: string, properties: Properties)
    | Ack(message: Message)
    | Nack(message: Message)
}
