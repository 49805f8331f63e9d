# RabbitMQ backend template — a Dafny model

This project models the message-broker layer and the HTTP helpers of a Node.js backend
template written in TypeScript. The modelled parts are:

- the connection supervisor `RabbitConnection`, with its capped linear backoff, its
  close and error handlers, the graceful-close flag and the singleton;
- the queue `Consumer`, covering the "connect" set-up, the shutdown gate on deliveries,
  `stop`, `queueStatus` and the signal handlers;
- the producer, covering `publish`, `publishToQueue` and the singleton;
- the RPC client `Service`, with the correlation-id listeners, the timeout and the
  send-failure path;
- the RPC responder that echoes requests back to their reply queues;
- the authentication middleware `auth`, which runs a chain of methods;
- the `APIResponseBuilder` response builder.

There is one Dafny module per source file. The shared modules are `Common`
(`Option`, `Result`, `Outcome`, a JSON `Value` type, `Truthy`, `Min`) and `Amqp`
(message, properties, queue options, and the channel operations a component issues).

Broker I/O is modelled as data:

- Every channel call a component makes (prefetch, assertQueue, consume, publish,
  sendToQueue, ack, nack) is returned or recorded as a `ChannelOp` list.
- Outcomes the broker decides are inputs. These are the connect attempts, `createChannel`,
  a queue declaration that rejects, a probe of a queue, and an `ack` that throws.
- `JSON.parse` and `JSON.stringify` are function parameters. A `None` result means
  `parse` threw, or `stringify` gave `undefined` or threw (on a circular structure or a
  `BigInt`); both ways of failing to serialise are the one error `NotSerializable`.
- The supervisor's retry loop consumes an oracle sequence of connect outcomes. It logs
  each backoff wait instead of sleeping. If the sequence runs out before a connection is
  made, the loop stays pending (`retrying`), and `Resume` feeds it more outcomes.

The code departs from its comments in a few places, and the model follows the code:

- The default RPC timeout is documented as 30 seconds. The code stores `30000` and arms
  the timer for `1000 * timeout` ms. `RpcClient.DefaultTimerDelay` states the resulting
  30,000,000 ms.
- The RPC client asks for an exclusive reply queue (`metadata: {exclusive: true}`). The
  `Consumer` ignores the descriptor's metadata and always declares its queue
  `{durable: true}`.
- `setSuccess`'s error text says "Data must be undefined or an object". Yet `undefined`
  fails its object check just as arrays, `null` and primitives do.

## Model

| member | source | states |
|---|---|---|
| Supervisor.RetryDelays | src/config/rabbitmq.ts:35-39 | a loop of `n` attempts waits exactly `n` times, once after every attempt including the successful one |
| Supervisor.RetryAfterIsCapped | src/config/rabbitmq.ts:37 | after `n` attempts the retry counter is `min(retry + n, 30)` |
| Supervisor.RetryDelayAt | src/config/rabbitmq.ts:34-38 | a fresh loop waits `1000 * min(k, 30)` ms after its k-th attempt |
| Supervisor.RetryDelaysBounded | src/config/rabbitmq.ts:37-38 | every wait lies between 1000 and 30000 ms, and the waits never decrease |
| Supervisor.RetryDelayIs | src/config/rabbitmq.ts:37-38 | the i-th wait from counter `retry` is `1000 * min(retry + i + 1, 30)` |
| Supervisor.RetryAfterCompose | src/config/rabbitmq.ts:37 | `a` attempts followed by `b` more leave the counter where `a + b` attempts would |
| Supervisor.RetryDelaysCompose | src/config/rabbitmq.ts:35-38 | a loop fed its outcomes in two pieces waits exactly as one fed them all at once |
| Supervisor.Attempts | src/config/rabbitmq.ts:35-36 | the loop tries until the first successful connect: every attempt before the last failed, and the last succeeded unless the outcomes ran out |
| Supervisor.RabbitConnection.constructor | src/config/rabbitmq.ts:18-23 | stores the string and runs one retry loop from counter 0 with nothing closed |
| Supervisor.RabbitConnection.Status | src/config/rabbitmq.ts:29-31 | the status is up exactly when a connection is held |
| Supervisor.RabbitConnection.GetConnection | src/config/rabbitmq.ts:80-82 | returns the held connection, which has been announced by a "connect" event once the loop step that made it has ended |
| Supervisor.RabbitConnection.SetupConnection | src/config/rabbitmq.ts:33-43 | the counter restarts at 0; the loop runs only while disconnected and not gracefully closed; its waits, counter and connection are the specification functions of the outcomes consumed; "connect" is emitted once exactly when it ends connected |
| Supervisor.RabbitConnection.Resume | src/config/rabbitmq.ts:35-40 | a pending loop continues from its current counter with the same guarantees |
| Supervisor.RabbitConnection.RunRetryLoop | src/config/rabbitmq.ts:35-42 | the `while` loop and the listener set-up preserve the supervisor invariant and end in the state `LoopFinished` describes |
| Supervisor.RabbitConnection.InitEventListeners | src/config/rabbitmq.ts:45-48 | "connect" is emitted with the held connection, and nothing is emitted without one |
| Supervisor.RabbitConnection.OnClose | src/config/rabbitmq.ts:49-61 | the connection is dropped; a graceful close emits "gracefulClose" and stops without waiting; any other close reruns `setupConnection` from counter 0; "error" is never emitted |
| Supervisor.RabbitConnection.OnError | src/config/rabbitmq.ts:63-69 | the connection is closed and dropped, and `setupConnection` reruns whatever the graceful flag says |
| Supervisor.RabbitConnection.CloseConnection | src/config/rabbitmq.ts:72-78 | when connected it sets the graceful flag and closes the connection; otherwise nothing changes |
| Supervisor.ConnectionRegistry.Create | src/config/rabbitmq.ts:18-23 | an empty connection string throws "connectionString is required"; any other string yields a fresh supervisor that has run its first loop |
| Supervisor.ConnectionRegistry.GetSingletonInstance | src/config/rabbitmq.ts:25-27 | the first successfully created instance is returned on every later call, whatever string is passed; a failed creation stores nothing |
| ConsumerLifecycle.SelectConsumers | src/consumer/index.ts:9-16 | a consumer is selected exactly when the argument is the string "example", and then it is the example consumer only |
| ConsumerLifecycle.ConnectOps | src/consumer/index.ts:43-46 | the set-up is prefetch with the batch size, a durable non-exclusive declaration of the queue, then a consume with manual acknowledgement |
| ConsumerLifecycle.Consumer.constructor | src/consumer/index.ts:34-39 | takes the queue, batch size and clean callback from the descriptor, with no channel and not shut down |
| ConsumerLifecycle.Consumer.OnConnect | src/consumer/index.ts:41-47 | keeps the connection; a created channel replaces the old one and gets the set-up operations; a rejected `createChannel` leaves the channel and issues nothing |
| ConsumerLifecycle.Consumer.Start | src/consumer/index.ts:54-72 | consumes the queue without auto-ack and watches the channel for errors |
| ConsumerLifecycle.Consumer.Deliver | src/consumer/index.ts:55-66 | after `stop` a delivery is ignored, with no processor call and no acknowledgement; otherwise the processor gets the message and the current channel, and its error is rethrown |
| ConsumerLifecycle.Consumer.Stop | src/consumer/index.ts:73-76 | sets the shutdown flag and calls `clean`, if there is one, on every call |
| ConsumerLifecycle.Consumer.OnChannelError | src/consumer/index.ts:68-71 | an error on a started channel stops the consumer |
| ConsumerLifecycle.Consumer.OnServiceError | src/consumer/index.ts:49-52 | an "error" from the supervisor stops the consumer |
| ConsumerLifecycle.Consumer.QueueStatus | src/consumer/index.ts:77-84 | zero counts without a channel or when the declaration rejects; otherwise the declared queue's counts |
| ConsumerLifecycle.CreateConsumers | src/consumer/index.ts:87 | one fresh consumer per selected descriptor, in order, all distinct, each with its descriptor's queue, batch size and clean callback, and each as constructed: no connection, no channel, not shut down, no clean call |
| ConsumerLifecycle.OnSignal | src/consumer/index.ts:89-97 | SIGINT and SIGTERM stop every consumer, each exactly once; its connection, channel and started channels stay as they were |
| ConsumerLifecycle.StartThenSignal | src/consumer/index.ts:87-97 | after start-up and a signal every selected consumer is shut down with no channel, and no `clean` call happens because the example consumer has none |
| Producer.Serialize | src/config/producer.ts:26-27 | strings are sent unchanged; any other payload is sent as its JSON text |
| Producer.DeclareOptions | src/config/producer.ts:38-39 | the declaration is always durable, and exclusive exactly when the metadata asks |
| Producer.SendProperties | src/config/producer.ts:41 | the send carries exactly the metadata's correlation id and reply queue |
| Producer.DeclareOps | src/config/producer.ts:40 | the queue is declared unless `skipAssert` is set |
| Producer.RabbitMqProducer.constructor | src/config/producer.ts:5-6 | starts with no connection and no channel |
| Producer.RabbitMqProducer.OnConnect | src/config/producer.ts:13-18 | keeps the connection and replaces the channel once `createChannel` resolves |
| Producer.RabbitMqProducer.Publish | src/config/producer.ts:24-33 | succeeds exactly when the content serialises and a channel exists; it then publishes the text to the exchange with routing key "default" unless one is given; otherwise it throws and publishes nothing |
| Producer.RabbitMqProducer.PublishToQueue | src/config/producer.ts:34-46 | succeeds exactly when the payload serialises, a channel exists and any declaration resolves; it then declares (unless skipped) and sends with the metadata's properties; a rejected declaration is issued, then rethrown as that rejection, and nothing is sent |
| Producer.ProducerRegistry.GetSingletonInstance | src/config/producer.ts:21-23 | creates the producer on the first call and returns the same object afterwards |
| Producer.SingletonIsShared | src/config/producer.ts:21-23 | two calls return one and the same producer |
| RpcResponder.ReplyPayload | src/consumer/rpc-consumer.ts:21 | the reply is the object `{content}` holding the request's text and nothing else |
| RpcResponder.ReplyMetadata | src/consumer/rpc-consumer.ts:21 | the reply carries the request's correlation id, skips the declaration, and is neither exclusive nor given a reply queue |
| RpcResponder.Process | src/consumer/rpc-consumer.ts:14-29 | a reply is published to `replyTo` exactly when both `replyTo` and the correlation id are truthy; the request is acknowledged in every case, and negatively acknowledged only when `ack` throws |
| RpcClient.MergeOptions | src/service/rabbitmq/rpc.ts:17-23 | each option the caller gives, even as `undefined`, replaces the default, and each one it leaves out keeps the default of 30000 or 20 |
| RpcClient.TimerDelay | src/service/rabbitmq/rpc.ts:66 | the timer delay is the timeout times 1000 ms; an `undefined` timeout gives no number |
| RpcClient.DefaultTimerDelay | src/service/rabbitmq/rpc.ts:17-23 | with the default options the timer is 30,000,000 ms |
| RpcClient.ReplyQueueId | src/service/rabbitmq/rpc.ts:24 | the reply queue is the name, then "-rpc-client-", then the 5-character suffix |
| RpcClient.SendFailureMessage | src/service/rabbitmq/rpc.ts:70 | the rejection is "Failed to send request: " followed by the publish error's message |
| RpcClient.SendFailureIsNotTimeout | src/service/rabbitmq/rpc.ts:65-70 | a send failure can never be mistaken for a timeout |
| RpcClient.RequestMetadata | src/service/rabbitmq/rpc.ts:67 | a request carries its correlation id and the reply queue, and declares the target queue as usual |
| RpcClient.Decode | src/service/rabbitmq/rpc.ts:39-46 | the response is the parsed JSON when the text parses, and the raw text otherwise |
| RpcClient.Service.constructor | src/service/rabbitmq/rpc.ts:21-36 | merges the options, names the reply queue, describes an exclusive reply consumer with the concurrency as batch, and starts with no calls |
| RpcClient.Service.Call | src/service/rabbitmq/rpc.ts:55-73 | registers exactly the new correlation id with a timer of `1000 * timeout` ms and publishes one request to the service queue with `replyTo` and the correlation id; ids stay unique |
| RpcClient.Service.Reply | src/service/rabbitmq/rpc.ts:37-53 | a reply for a pending id resolves that call with the decoded response and removes its listener; any other reply changes no call; the message is acknowledged in every case; no settled outcome changes |
| RpcClient.Service.Timeout | src/service/rabbitmq/rpc.ts:63-66 | a pending call loses its listener and rejects with "Request timed out"; a settled call is untouched |
| RpcClient.Service.SendFailed | src/service/rabbitmq/rpc.ts:67-71 | a pending call loses its timer and listener and rejects with the send-failure message; a settled call is untouched |
| RpcClient.LateReplyIsDropped | src/service/rabbitmq/rpc.ts:55-73 | a reply arriving after the timeout does not resurrect the call; it stays rejected, no listener remains, and the reply is still acknowledged |
| RpcClient.DuplicateReplyIsDropped | src/service/rabbitmq/rpc.ts:58-62 | the one-shot listener keeps the first reply; a second reply with the same id changes nothing |
| Auth.ApiKeyOf | src/middleware/auth.ts:71 | the key is the `x-api-key` header when it is non-empty, and `query.apiKey` otherwise |
| Auth.ApiKeyAuth | src/middleware/auth.ts:70-77 | passes exactly when the key is non-empty and equals the master key, so with no master key nothing passes; otherwise it throws "API Key not found" with status 401 |
| Auth.TryMethod | src/middleware/auth.ts:40-59 | "token" throws 501 "Not Implemented"; "apiKey" decides with `next()` or throws; "none" calls `next()`; any other method calls `next` with the 401 authentication error |
| Auth.TriedCount | src/middleware/auth.ts:36-37 | the chain tries at least one method of a non-empty list and never more than the list holds |
| Auth.ChainCallsNextOnce | src/middleware/auth.ts:32-68 | `next` is called exactly once for a non-empty method list, and never for an empty one |
| Auth.FirstDecidingMethodWins | src/middleware/auth.ts:36-65 | the first method that does not throw settles the request, and the errors before it are swallowed |
| Auth.AllThrowReportsLast | src/middleware/auth.ts:60-64 | when every method throws, `next` receives the last method's error and every method was tried |
| Auth.Authenticate | src/middleware/auth.ts:32-68 | the `while` loop over a copy of the list, which defaults to `["apiKey"]`, makes exactly the `next` calls of the chain's reference definition `Chain` (auth.ts:36-65) and tries exactly its prefix of methods; the caller's list is not modified |
| Utility.Spread | src/utility/index.ts:26-28 | spreading `null` contributes no fields, and spreading an object contributes its own fields |
| Utility.WithMeta | src/utility/index.ts:25-31 | the data becomes an object holding the previous fields plus `meta`, with `meta` set to the new value and every other field unchanged |
| Utility.LastMetaWins | src/utility/index.ts:25-31 | calling `setMeta` twice keeps only the second meta |
| Utility.APIResponseBuilder.constructor | src/utility/index.ts:17-23 | a new builder has status 'success', code 200, a `null` message and data, and success set |
| Utility.APIResponseBuilder.SetMeta | src/utility/index.ts:25-31 | adds `meta` to the data, keeps the other fields, and returns the builder |
| Utility.APIResponseBuilder.SetSuccess | src/utility/index.ts:32-42 | the code is set (default 200) even when the data is rejected; only a plain object is accepted, and it replaces the data and sets success; the status and message are left as they were |
| Utility.APIResponseBuilder.SetError | src/utility/index.ts:43-52 | a non-string message throws before anything changes; otherwise the code (default 400), the message, the 'error' status and a cleared success flag are set |
| Utility.APIResponseBuilder.Build | src/utility/index.ts:53-61 | the body carries the status and success flag, with data that is `null` or an object and a message that is `null` or a string; the code is not part of it |
| Utility.FreshBuild | src/utility/index.ts:17-23 | a fresh builder builds `{status: 'success', message: null, data: null, success: true}` with code 200 |
| Utility.ErrorThenSuccess | src/utility/index.ts:32-52 | `setError` then `setSuccess` builds a body with status 'error' and success true: the two can disagree |

## Left out

- Logging (`logger`, `console`) and the `delay` helper's timer: each backoff wait is recorded as a number of milliseconds instead of slept.
- Interleavings inside the supervisor's loop: each loop runs to completion in the model. The model therefore does not capture a `closeConnection` during the wait that follows a successful connect but comes before the listeners are installed, nor a close event arriving during a later loop.
- Removal of listeners (`removeAllListeners`) and the connection objects' own events: the close and error handlers are methods the environment invokes.
- The module-level `throw` when `QUEUE_CONNECTION_URL` is unset, and the default export that reads it: environment loading is not part of this model.
- The 10-second wait after a signal: the handlers stop every consumer and then await `delay(10000)`. Nothing exits the process afterwards, and because SIGINT and SIGTERM have listeners, Node's default exit on them no longer applies, so the process keeps running. The model covers the stops only.
- Argument parsing by `args-parser`: the parsed `consumer` argument is an input.
- The processors of `src/consumer/example.ts` and of the RPC responder are only modelled as far as the consumer and the responder call them. The example consumer's descriptor is a constant.
- Node's treatment of out-of-range timer delays: Node runs a timer whose delay is `NaN` or above 2^31 - 1 ms after 1 ms. An `undefined` timeout therefore rejects every call with "Request timed out" almost at once, and so does a timeout above 2,147,483 s. `TimerDelay` gives `None` for `NaN` and the unbounded product otherwise, and `Timeout` is an event the environment may fire at any moment, so the model does not capture that early firing.
- `uuidv4()` and `nanoid(5)`: they are inputs. `Call` requires the correlation id to be new, which is what a v4 UUID promises.
- The order of JSON object keys, and JavaScript numbers: numbers are integers in `Value`, and objects are maps.
- `query.apiKey` given as an array (`toString()` of an array), and a `next` that throws inside the `try`: the key is an optional string, and `next` only records its calls.
- JSON web tokens: the "token" method always throws "Not Implemented".
- `src/server.ts`, `src/route/example/index.ts` and `src/config/env.ts` are not part of this model.
- ConsumerLifecycle.Consumer.Deliver: the processor runs to completion with the outcome given. Its awaiting, and the unhandled rejection after a rethrow, are not modelled.
- Producer.RabbitMqProducer.Publish: a `publish` that throws inside the broker library (for instance on a closed channel) is not modelled. Only a missing channel and a payload with no text form throw.
- Producer.RabbitMqProducer.PublishToQueue: a `sendToQueue` that throws inside the broker library (for instance on a closed channel) also propagates to the caller; the model does not capture it. Only a missing channel, a payload with no text form and a rejected declaration throw.
- Supervisor.RabbitConnection.GetConnection: in the program the connection is stored as soon as `amqp.connect` resolves, but "connect" is emitted only after the following `await delay(1000 * retry)`. For 1 to 30 s, `status()` is therefore true and `getConnection()` returns a connection no listener has been told about. The model runs the loop, wait included, as one step, so its announcement clause does not capture that window.
- The responder descriptor of `src/consumer/rpc-consumer.ts` (queue "example_service", batch 1) is never registered: the consumer module imports the descriptor of `src/consumer/example.ts`. Only the responder's processor is modelled.
