/** The responder of lib/reply.ts: every request read from the request
    queue is handed to the application's handler, and the outcome, success
    or failure, is sent back to the request's reply queue with the request's
    id as correlation id, through a sender cached per reply queue.

    The event emitter's "request" and "error" events are direct calls; the
    broker's send result for each reply is a parameter. */
module Responder {
  import opened Envelope

  /** What the handler does with a payload: it returns a value (which may
      itself be an Error object) or throws an Error. */
  datatype HandlerResult =
    | Returned(value: Value)
    | Threw(message: string, stack: string)

  /** `RequestHandlerError`: an Error with the message and stack of the
      error it wraps, and the id and reply queue of the request being
      handled. */
  datatype RequestHandlerError = RequestHandlerError(
    message: string, stack: string, requestId: string, replyTo: string)

  /** A `RequestHandlerError` is an Error object with its own message and
      stack, which are those of the wrapped error. */
  function AsError(e: RequestHandlerError): Value {
    ErrorObject(e.message, e.stack)
  }

  /** The body `respondToRequest` sends for a payload: an Error becomes
      `{success: false, error: message, stack}`, anything else
      `{success: true, data: payload}`. */
  function ReplyBodyFor(payload: Value): (b: ReplyBody)
    ensures b.success <==> payload.Plain?
    ensures b.success ==> b.data == Some(payload) && b.error == None && b.stack == None
    ensures !b.success ==>
      b.data == None && b.error == Some(payload.message) && b.stack == Some(payload.stack)
  {
    match payload
    case Plain(_) => ReplyBody(true, Some(payload), None, None)
    case ErrorObject(message, stack) => ReplyBody(false, None, Some(message), Some(stack))
  }

  /** `new RequestHandlerError(error, requestId, replyTo)`: the wrapper is,
      as an Error, the error it wraps (same message, same stack), and
      carries the request's id and reply queue besides. */
  function Wrap(error: Value, requestId: string, replyTo: string): (e: RequestHandlerError)
    requires error.ErrorObject?
    ensures AsError(e) == error
    ensures e.requestId == requestId && e.replyTo == replyTo
  {
    RequestHandlerError(error.message, error.stack, requestId, replyTo)
  }

  /** A reply on its way: destination queue, correlation id and body. */
  datatype Outgoing = Outgoing(queue: string, correlationId: string, body: ReplyBody)

  /** What the broker did with one `sendMessages` call. */
  datatype SendResult = Delivered | SendFailed(message: string, stack: string)

  /** One attempt at sending a reply, with what the broker made of it. */
  datatype Attempt = Attempt(message: Outgoing, result: SendResult)

  /** The reply `processRequestError` attempts for a `RequestHandlerError`:
      a failure body, routed by the error's own request id and reply queue. */
  function FailureReply(e: RequestHandlerError): (m: Outgoing)
    ensures m.queue == e.replyTo && m.correlationId == e.requestId
    ensures m.body == ReplyBodyFor(ErrorObject(e.message, e.stack))
  {
    Outgoing(e.replyTo, e.requestId, ReplyBodyFor(AsError(e)))
  }

  /** The replies attempted for one request whose handler gave `outcome`.
      `replySend` is the broker's answer to sending the handler's value,
      `failureSend` its answer to sending a failure reply. The `try` in
      `processRequest` covers the send too, so a failed send of the value
      is followed by a failure reply carrying the send error. */
  function Attempts(outcome: HandlerResult, requestId: string, replyTo: string,
                    replySend: SendResult, failureSend: SendResult): (a: seq<Attempt>)
    ensures 1 <= |a| <= 2
    ensures forall i :: 0 <= i < |a| ==>
      a[i].message.queue == replyTo && a[i].message.correlationId == requestId
    ensures outcome.Threw? ==>
      a == [Attempt(Outgoing(replyTo, requestId,
                             ReplyBodyFor(ErrorObject(outcome.message, outcome.stack))), failureSend)]
    ensures outcome.Returned? ==>
      a[0] == Attempt(Outgoing(replyTo, requestId, ReplyBodyFor(outcome.value)), replySend)
    ensures |a| == 2 <==> outcome.Returned? && replySend.SendFailed?
    ensures |a| == 2 ==>
      a[1] == Attempt(Outgoing(replyTo, requestId,
                               ReplyBodyFor(ErrorObject(replySend.message, replySend.stack))), failureSend)
  {
    match outcome
    case Threw(message, stack) =>
      [Attempt(FailureReply(Wrap(ErrorObject(message, stack), requestId, replyTo)), failureSend)]
    case Returned(value) =>
      var first := Attempt(Outgoing(replyTo, requestId, ReplyBodyFor(value)), replySend);
      match replySend
      case Delivered => [first]
      case SendFailed(message, stack) =>
        [first, Attempt(FailureReply(Wrap(ErrorObject(message, stack), requestId, replyTo)), failureSend)]
  }

  /** The attempted replies the broker accepted, in order. */
  function DeliveredMessages(a: seq<Attempt>): seq<Outgoing> {
    if a == [] then []
    else (if a[0].result.Delivered? then [a[0].message] else []) + DeliveredMessages(a[1..])
  }

  lemma DeliveredOfAtMostTwo(a: seq<Attempt>)
    requires |a| <= 2
    ensures DeliveredMessages(a)
         == (if |a| >= 1 && a[0].result.Delivered? then [a[0].message] else [])
          + (if |a| == 2 && a[1].result.Delivered? then [a[1].message] else [])
  {
  }

  /** A request gets at most one reply onto its reply queue: a second
      attempt is made only when the first was not delivered. When the last
      attempt is delivered, the request gets exactly one. */
  lemma AtMostOneReplyDelivered(outcome: HandlerResult, requestId: string, replyTo: string,
                                replySend: SendResult, failureSend: SendResult)
    ensures var a := Attempts(outcome, requestId, replyTo, replySend, failureSend);
            && |DeliveredMessages(a)| <= 1
            && (a[|a| - 1].result.Delivered? ==> |DeliveredMessages(a)| == 1)
  {
    DeliveredOfAtMostTwo(Attempts(outcome, requestId, replyTo, replySend, failureSend));
  }

  /** An error the emitter routes to its "error" listener. */
  datatype EmittedError =
    | HandlerFailure(error: RequestHandlerError)
    | OtherError(message: string, stack: string)

  /** The handle `createSender` returns: the `id`-th sender created, bound
      to `queue`. */
  datatype Sender = Sender(id: nat, queue: string)

  /** The cache after a lookup of `queue`: unchanged if it holds `queue`,
      otherwise extended by the sender created next. */
  function CacheWith(cache: map<string, Sender>, created: nat, queue: string): (c: map<string, Sender>)
    ensures c.Keys == cache.Keys + {queue}
    ensures forall k :: k in cache ==> c[k] == cache[k]
    ensures queue !in cache ==> c[queue] == Sender(created, queue)
  {
    if queue in cache then cache else cache[queue := Sender(created, queue)]
  }

  /** The class `Reply`. `created` logs every queue a sender was created
      for; `outbox` holds the replies the broker accepted. */
  class Reply {
    const requestQueue: string
    const handler: Value -> HandlerResult

    var replyToQueues: map<string, Sender>
    var senders: nat
    ghost var created: seq<string>
    var outbox: seq<Outgoing>

    /** At most one sender is ever created per queue name, and the cache
        holds exactly the senders created, each under its own queue. */
    ghost predicate Valid()
      reads this
    {
      && senders == |created|
      && (forall i, j :: 0 <= i < j < |created| ==> created[i] != created[j])
      && (forall i :: 0 <= i < |created| ==> created[i] in replyToQueues)
      && (forall q :: q in replyToQueues ==>
            && replyToQueues[q].queue == q
            && replyToQueues[q].id < |created|
            && created[replyToQueues[q].id] == q)
    }

    constructor (requestQueue: string, handler: Value -> HandlerResult)
      ensures Valid()
      ensures this.requestQueue == requestQueue && this.handler == handler
      ensures replyToQueues == map[] && created == [] && outbox == []
    {
      this.requestQueue := requestQueue;
      this.handler := handler;
      replyToQueues, senders, created, outbox := map[], 0, [], [];
    }

    /** The sender for `queue`: the cached one, or a new one that is cached
        from then on. Other entries are untouched; the cache never shrinks. */
    method GetReplyQueue(queue: string) returns (sender: Sender)
      requires Valid()
      modifies this
      ensures Valid()
      ensures sender.queue == queue && queue in replyToQueues && sender == replyToQueues[queue]
      ensures replyToQueues == CacheWith(old(replyToQueues), old(senders), queue)
      ensures queue in old(replyToQueues) ==>
        sender == old(replyToQueues)[queue] && created == old(created)
      ensures queue !in old(replyToQueues) ==>
        sender == Sender(old(senders), queue) && created == old(created) + [queue]
      ensures outbox == old(outbox)
    {
      if queue in replyToQueues {
        return replyToQueues[queue];
      }
      sender := Sender(senders, queue);
      replyToQueues := replyToQueues[queue := sender];
      senders := senders + 1;
      created := created + [queue];
    }

    /** Send the reply body for `payload` to `replyTo`, correlated with
        `requestId`. Returns the error `sendMessages` raised, if any. */
    method RespondToRequest(requestId: string, replyTo: string, payload: Value, send: SendResult)
      returns (error: Option<Value>)
      requires Valid()
      modifies this
      ensures Valid()
      ensures replyToQueues == CacheWith(old(replyToQueues), old(senders), replyTo)
      ensures created == old(created) + (if replyTo in old(replyToQueues) then [] else [replyTo])
      ensures outbox == old(outbox)
        + (if send.Delivered? then [Outgoing(replyTo, requestId, ReplyBodyFor(payload))] else [])
      ensures error == (if send.Delivered? then None else Some(ErrorObject(send.message, send.stack)))
    {
      var sender := GetReplyQueue(replyTo);
      var body := ReplyBodyFor(payload);
      match send
      case Delivered =>
        outbox := outbox + [Outgoing(sender.queue, requestId, body)];
        error := None;
      case SendFailed(message, stack) =>
        error := Some(ErrorObject(message, stack));
    }

    /** The "request" listener: run the handler and reply with its value.
        Whatever is thrown, by the handler or by the send, is rethrown as a
        `RequestHandlerError` for this request. */
    method ProcessRequest(payload: Value, requestId: string, replyTo: string, replySend: SendResult)
      returns (thrown: Option<RequestHandlerError>)
      requires Valid()
      modifies this
      ensures Valid()
      ensures handler(payload).Threw? ==>
        && thrown == Some(RequestHandlerError(handler(payload).message, handler(payload).stack,
                                              requestId, replyTo))
        && replyToQueues == old(replyToQueues) && created == old(created) && outbox == old(outbox)
      ensures handler(payload).Returned? ==>
        && replyToQueues == CacheWith(old(replyToQueues), old(senders), replyTo)
        && created == old(created) + (if replyTo in old(replyToQueues) then [] else [replyTo])
        && outbox == old(outbox)
             + (if replySend.Delivered?
                then [Outgoing(replyTo, requestId, ReplyBodyFor(handler(payload).value))] else [])
        && thrown == (if replySend.Delivered? then None
                      else Some(RequestHandlerError(replySend.message, replySend.stack, requestId, replyTo)))
    {
      var result := handler(payload);
      match result
      case Threw(message, stack) =>
        thrown := Some(Wrap(ErrorObject(message, stack), requestId, replyTo));
      case Returned(value) =>
        var error := RespondToRequest(requestId, replyTo, value, replySend);
        if error.Some? {
          thrown := Some(Wrap(error.value, requestId, replyTo));
        } else {
          thrown := None;
        }
    }

    /** The "error" listener: only a `RequestHandlerError` is answered, with
        a failure reply routed by the error itself. An error raised while
        sending that reply is not answered again: it escapes the listener,
        and `escaped` returns it. */
    method ProcessRequestError(error: EmittedError, failureSend: SendResult)
      returns (escaped: Option<Value>)
      requires Valid()
      modifies this
      ensures Valid()
      ensures escaped == (if error.HandlerFailure? && failureSend.SendFailed?
                          then Some(ErrorObject(failureSend.message, failureSend.stack)) else None)
      ensures error.OtherError? ==>
        replyToQueues == old(replyToQueues) && created == old(created) && outbox == old(outbox)
      ensures error.HandlerFailure? ==>
        && replyToQueues == CacheWith(old(replyToQueues), old(senders), error.error.replyTo)
        && created == old(created)
             + (if error.error.replyTo in old(replyToQueues) then [] else [error.error.replyTo])
        && outbox == old(outbox)
             + (if failureSend.Delivered? then [FailureReply(error.error)] else [])
    {
      if error.HandlerFailure? {
        var e := error.error;
        escaped := RespondToRequest(e.requestId, e.replyTo, AsError(e), failureSend);
      } else {
        escaped := None;
      }
    }

    /** A request arrives: its body, id and reply queue go to the "request"
        listener unchanged, and what it throws to the "error" listener.
        `unhandled` is what escapes the "error" listener: the send error of
        the last attempt, when that attempt was not delivered. */
    method HandleRequest(message: RequestMessage, replySend: SendResult, failureSend: SendResult)
      returns (unhandled: Option<Value>)
      requires Valid()
      modifies this
      ensures Valid()
      ensures replyToQueues == CacheWith(old(replyToQueues), old(senders), message.replyTo)
      ensures created == old(created)
        + (if message.replyTo in old(replyToQueues) then [] else [message.replyTo])
      ensures outbox == old(outbox)
        + DeliveredMessages(Attempts(handler(message.body), message.messageId, message.replyTo,
                                     replySend, failureSend))
      ensures var a := Attempts(handler(message.body), message.messageId, message.replyTo,
                                replySend, failureSend);
              var last := a[|a| - 1].result;
              unhandled == (if last.SendFailed? then Some(ErrorObject(last.message, last.stack)) else None)
    {
      ghost var attempts :=
        Attempts(handler(message.body), message.messageId, message.replyTo, replySend, failureSend);
      var thrown := ProcessRequest(message.body, message.messageId, message.replyTo, replySend);
      if thrown.Some? {
        unhandled := ProcessRequestError(HandlerFailure(thrown.value), failureSend);
      } else {
        unhandled := None;
      }
      DeliveredOfAtMostTwo(attempts);
    }
  }
}
