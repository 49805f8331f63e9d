/** The RPC client `Service` of `src/service/rabbitmq/rpc.ts`.  Each `call` registers
    a one-shot listener under a fresh correlation id, arms a timer and publishes the
    request; the first of reply, timeout or send failure settles the call and removes
    the listener.  The three events are methods of their own; `JSON.parse` is the
    parameter `parse` (`None` where it throws). */
module RpcClient {
  import opened Common
  import opened Amqp
  import opened Producer

  /** An option field as the spread `{...defaults, ...options}` sees it: absent,
      present but `undefined`, or a number. */
  datatype Prop = Absent | Undef | Given(n: int)

  datatype Options = Options(timeout: Prop, concurrency: Prop)

  /** The defaults; the timeout is documented in seconds and multiplied by 1000. */
  const DEFAULT_OPTIONS := Options(Given(30000), Given(20))

  /** One field of the spread: the caller's field wins whenever it is present. */
  function Override(default: Prop, given: Prop): Prop {
    if given.Absent? then default else given
  }

  /** `{...this.options, ...options}`: field by field, a field the caller gives
      (even as `undefined`) replaces the default, a field it leaves out keeps it. */
  function MergeOptions(caller: Option<Options>): (merged: Options)
    ensures !merged.timeout.Absent? && !merged.concurrency.Absent?
    ensures caller.None? ==> merged == DEFAULT_OPTIONS
    ensures caller.Some? && !caller.value.timeout.Absent? ==> merged.timeout == caller.value.timeout
    ensures caller.Some? && caller.value.timeout.Absent? ==> merged.timeout == Given(30000)
    ensures caller.Some? && !caller.value.concurrency.Absent? ==> merged.concurrency == caller.value.concurrency
    ensures caller.Some? && caller.value.concurrency.Absent? ==> merged.concurrency == Given(20)
  {
    if caller.None? then DEFAULT_OPTIONS
    else Options(Override(DEFAULT_OPTIONS.timeout, caller.value.timeout),
                 Override(DEFAULT_OPTIONS.concurrency, caller.value.concurrency))
  }

  /** The timer delay `1000 * options.timeout` in ms; `None` stands for the NaN an
      `undefined` timeout gives. */
  function TimerDelay(timeout: Prop): (ms: Option<int>)
    requires !timeout.Absent?
    ensures timeout.Given? <==> ms.Some?
    ensures timeout.Given? ==> ms.value / 1000 == timeout.n && ms.value % 1000 == 0
  {
    if timeout.Given? then Some(1000 * timeout.n) else None
  }

  /** With the defaults the timer is 30,000,000 ms (more than eight hours), not 30 s. */
  lemma DefaultTimerDelay()
    ensures TimerDelay(MergeOptions(None).timeout) == Some(30_000_000)
    ensures TimerDelay(MergeOptions(Some(Options(Absent, Given(5)))).timeout) == Some(30_000_000)
  {
  }

  const REPLY_QUEUE_INFIX := "-rpc-client-"

  /** The reply queue id `${name}-rpc-client-${nanoid(5)}`. */
  function ReplyQueueId(name: string, suffix: string): (id: string)
    requires |suffix| == 5
    ensures |id| == |name| + 17
    ensures id[..|name|] == name
    ensures id[|name|..|name| + 12] == REPLY_QUEUE_INFIX
    ensures id[|name| + 12..] == suffix
  {
    name + REPLY_QUEUE_INFIX + suffix
  }

  /** The consumer created on the reply queue: `batch` is the concurrency option and
      the metadata asks for an exclusive queue. */
  datatype ReplyConsumer = ReplyConsumer(queue: string, batch: Prop, exclusive: bool)

  /** A registered listener and the delay of its armed timer. */
  datatype Pending = Pending(timerMs: Option<int>)

  /** How a call settled. */
  datatype CallOutcome = Resolved(response: Value) | Rejected(message: string)

  const TIMEOUT_MESSAGE := "Request timed out"

  function SendFailureMessage(reason: string): (message: string)
    ensures |message| == 24 + |reason| && message[..24] == "Failed to send request: " && message[24..] == reason
  {
    "Failed to send request: " + reason
  }

  /** A send failure can always be told apart from a timeout. */
  lemma SendFailureIsNotTimeout(reason: string)
    ensures SendFailureMessage(reason) != TIMEOUT_MESSAGE
  {
  }

  /** The request published for a call: `publishToQueue(name, payload, {replyTo: id, correlationId})`. */
  datatype Request = Request(queue: string, payload: Value, metadata: Metadata)

  function RequestMetadata(replyQueue: string, correlationId: string): (metadata: Metadata)
    ensures metadata.correlationId == Some(correlationId) && metadata.replyTo == Some(replyQueue)
    ensures !metadata.skipAssert && !metadata.exclusive
  {
    Metadata(false, false, Some(correlationId), Some(replyQueue))
  }

  function IssuedId(request: Request): string {
    request.metadata.correlationId.GetOr("")
  }

  /** The reply's response: the parsed JSON value when the text parses, the raw text otherwise. */
  function Decode(parse: string -> Option<Value>, content: string): (response: Value)
    ensures parse(content).Some? ==> response == parse(content).value
    ensures parse(content).None? ==> response == Str(content)
  {
    match parse(content)
    case Some(v) => v
    case None => Str(content)
  }

  /** No settled call changes its outcome or becomes unsettled. */
  predicate KeepsOutcomes(before: map<string, CallOutcome>, after: map<string, CallOutcome>) {
    forall c | c in before :: c in after && after[c] == before[c]
  }

  class Service {
    const id: string
    const name: string
    const options: Options
    const consumer: ReplyConsumer
    /** The correlation ids with a registered listener and an armed timer. */
    var pending: map<string, Pending>
    /** The calls that settled, with how. */
    var settled: map<string, CallOutcome>
    /** Every request published, in order. */
    var requests: seq<Request>
    /** Every reply message acknowledged, in order. */
    var acked: seq<Message>

    /** The correlation ids of all calls made. */
    ghost function Issued(): set<string>
      reads this
    {
      set r | r in requests :: IssuedId(r)
    }

    ghost predicate Valid()
      reads this
    {
      && !options.timeout.Absent?
      && pending.Keys !! settled.Keys
      && pending.Keys + settled.Keys == Issued()
      && (forall c | c in pending :: pending[c] == Pending(TimerDelay(options.timeout)))
      && (forall i | 0 <= i < |requests| ::
            && requests[i].queue == name
            && requests[i].metadata == RequestMetadata(id, IssuedId(requests[i])))
      && (forall i, j | 0 <= i < j < |requests| :: IssuedId(requests[i]) != IssuedId(requests[j]))
    }

    /** `new Service(name, options)`; `suffix` is what `nanoid(5)` returned. */
    constructor (name: string, caller: Option<Options>, suffix: string)
      requires |suffix| == 5
      ensures Valid()
      ensures this.name == name && options == MergeOptions(caller)
      ensures id == ReplyQueueId(name, suffix)
      ensures consumer == ReplyConsumer(id, options.concurrency, true)
      ensures pending == map[] && settled == map[] && requests == [] && acked == []
    {
      this.name := name;
      options := MergeOptions(caller);
      id := ReplyQueueId(name, suffix);
      consumer := ReplyConsumer(ReplyQueueId(name, suffix), MergeOptions(caller).concurrency, true);
      pending := map[];
      settled := map[];
      requests := [];
      acked := [];
    }

    /** `call(payload)` with `correlationId` the fresh id `uuidv4()` returned: registers
        the listener, arms the timer for `1000 * options.timeout` ms and publishes the
        request to queue `name` with `replyTo = id`. */
    method Call(payload: Value, correlationId: string)
      requires Valid()
      requires correlationId !in Issued()
      modifies this`pending, this`requests
      ensures Valid()
      ensures pending == old(pending)[correlationId := Pending(TimerDelay(options.timeout))]
      ensures requests == old(requests) + [Request(name, payload, RequestMetadata(id, correlationId))]
      ensures Issued() == old(Issued()) + {correlationId}
    {
      var request := Request(name, payload, RequestMetadata(id, correlationId));
      assert IssuedId(request) == correlationId;
      pending := pending[correlationId := Pending(TimerDelay(options.timeout))];
      requests := requests + [request];
      assert forall r :: r in requests <==> r in old(requests) || r == request;
    }

    /** `responseHandler(msg)`: decodes the reply and hands it to the listener of its
        correlation id, if one is still registered, which resolves that call and clears
        its timer; the message is acknowledged in every case. */
    method Reply(parse: string -> Option<Value>, message: Message)
      requires Valid()
      modifies this`pending, this`settled, this`acked
      ensures Valid() && acked == old(acked) + [message] && Issued() == old(Issued())
      ensures KeepsOutcomes(old(settled), settled)
      ensures var c := message.properties.correlationId;
        if c.Some? && c.value in old(pending) then
          && pending == old(pending) - {c.value}
          && settled == old(settled)[c.value := Resolved(Decode(parse, message.content))]
        else
          pending == old(pending) && settled == old(settled)
    {
      var response := Decode(parse, message.content);
      var c := message.properties.correlationId;
      if c.Some? && c.value in pending {
        pending := pending - {c.value};
        settled := settled[c.value := Resolved(response)];
      }
      acked := acked + [message];
    }

    /** The timer of `correlationId` fires: the listener is removed and the call rejects
        with "Request timed out".  A cleared timer never fires, which here means a call
        that already settled is left alone. */
    method Timeout(correlationId: string)
      requires Valid()
      modifies this`pending, this`settled
      ensures Valid() && Issued() == old(Issued()) && KeepsOutcomes(old(settled), settled)
      ensures correlationId in old(pending) ==>
        && pending == old(pending) - {correlationId}
        && settled == old(settled)[correlationId := Rejected(TIMEOUT_MESSAGE)]
      ensures correlationId !in old(pending) ==> pending == old(pending) && settled == old(settled)
    {
      if correlationId in pending {
        pending := pending - {correlationId};
        settled := settled[correlationId := Rejected(TIMEOUT_MESSAGE)];
      }
    }

    /** The publish of `correlationId`'s request rejected with `reason`: the timer is
        cleared, the listener removed and the call rejects with a send-failure message.
        A call that already settled keeps its outcome. */
    method SendFailed(correlationId: string, reason: string)
      requires Valid()
      modifies this`pending, this`settled
      ensures Valid() && Issued() == old(Issued()) && KeepsOutcomes(old(settled), settled)
      ensures correlationId in old(pending) ==>
        && pending == old(pending) - {correlationId}
        && settled == old(settled)[correlationId := Rejected(SendFailureMessage(reason))]
      ensures correlationId !in old(pending) ==> pending == old(pending) && settled == old(settled)
    {
      if correlationId in pending {
        pending := pending - {correlationId};
        settled := settled[correlationId := Rejected(SendFailureMessage(reason))];
      }
    }
  }

  /** A call that timed out keeps its timeout rejection when its reply arrives later,
      and the reply is still acknowledged. */
  method LateReplyIsDropped(name: string, suffix: string, payload: Value, correlationId: string,
                            parse: string -> Option<Value>, content: string)
    returns (outcome: CallOutcome, listening: bool, ackCount: nat)
    requires |suffix| == 5
    ensures outcome == Rejected(TIMEOUT_MESSAGE) && !listening && ackCount == 1
  {
    var service := new Service(name, None, suffix);
    service.Call(payload, correlationId);
    service.Timeout(correlationId);
    service.Reply(parse, Message(content, Properties(Some(correlationId), None)));
    outcome := service.settled[correlationId];
    listening := correlationId in service.pending;
    ackCount := |service.acked|;
  }

  /** A second reply for the same correlation id finds no listener: the call keeps the
      first response. */
  method DuplicateReplyIsDropped(name: string, suffix: string, payload: Value, correlationId: string,
                                 parse: string -> Option<Value>, first: string, second: string)
    returns (outcome: CallOutcome)
    requires |suffix| == 5
    ensures outcome == Resolved(Decode(parse, first))
  {
    var service := new Service(name, None, suffix);
    service.Call(payload, correlationId);
    service.Reply(parse, Message(first, Properties(Some(correlationId), None)));
    service.Reply(parse, Message(second, Properties(Some(correlationId), None)));
    outcome := service.settled[correlationId];
  }
}
