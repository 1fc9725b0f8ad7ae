/** How the two roles fit together: the body the responder writes is the
    body the requester decodes, so a request is settled with what the
    handler produced. */
module Correlation {
  import opened Envelope
  import opened Requester
  import opened Responder

  /** What a requester should be settled with when the responder replied
      with the payload `v`. */
  function Expected(v: Value): Settlement {
    match v
    case Plain(_) => Resolved(Some(v))
    case ErrorObject(message, stack) => Rejected(message, Some(stack))
  }

  /** The body shape `respondToRequest` writes is the shape
      `handleResponse` reads: a value comes back as the resolved data, an
      Error as a rejection with its message and stack. */
  lemma ReplyBodyRoundTrip(v: Value)
    ensures Decode(ReplyBodyFor(v)) == Expected(v)
  {
  }

  /** What the caller of `request` learns when the responder's handler gave
      `outcome` and the reply for it met `replySend`: the handler's value,
      the handler's error, or the error of the failed send. */
  function Learned(outcome: HandlerResult, replySend: SendResult): Settlement {
    match outcome
    case Threw(message, stack) => Rejected(message, Some(stack))
    case Returned(v) =>
      match replySend
      case Delivered => Expected(v)
      case SendFailed(message, stack) => Rejected(message, Some(stack))
  }

  /** End to end: a request registered under a fresh id is answered by at
      most one delivered reply, on the requester's reply queue; handed to
      `handleResponse`, that reply settles exactly the new call, with what
      the handler produced, and leaves the table as it was before the
      request apart from the settlement. */
  lemma {:induction false} RequestReplyRoundTrip(
    t: Table, requestId: string, timeoutInMs: nat, replyQueue: string, payload: Value,
    outcome: HandlerResult, replySend: SendResult, failureSend: SendResult)
    requires Inv(t) && requestId !in t.pending
    ensures
      var registered := Register(t, requestId, timeoutInMs);
      var request := RequestMessage(requestId, replyQueue, payload);
      var replies := DeliveredMessages(
        Attempts(outcome, request.messageId, request.replyTo, replySend, failureSend));
      && |replies| <= 1
      && forall m :: m in replies ==>
           && m.queue == replyQueue
           && Respond(registered, Some(m.correlationId), m.body)
              == Table(t.pending, t.timers, t.calls + 1,
                       t.settled + [Settled(t.calls, requestId, Learned(outcome, replySend))])
  {
    var attempts := Attempts(outcome, requestId, replyQueue, replySend, failureSend);
    var learned := Learned(outcome, replySend);
    AtMostOneReplyDelivered(outcome, requestId, replyQueue, replySend, failureSend);
    DeliveredOfAtMostTwo(attempts);
    forall m | m in DeliveredMessages(attempts)
      ensures m.queue == replyQueue && m.correlationId == requestId && Decode(m.body) == learned
    {
      match outcome
      case Threw(message, stack) => ReplyBodyRoundTrip(ErrorObject(message, stack));
      case Returned(v) =>
        match replySend
        case Delivered => ReplyBodyRoundTrip(v);
        case SendFailed(message, stack) => ReplyBodyRoundTrip(ErrorObject(message, stack));
    }
    forall m | m in DeliveredMessages(attempts)
      ensures Respond(Register(t, requestId, timeoutInMs), Some(m.correlationId), m.body)
              == Table(t.pending, t.timers, t.calls + 1,
                       t.settled + [Settled(t.calls, requestId, learned)])
    {
      RegisterThenRespond(t, requestId, timeoutInMs, m.body);
    }
  }
}
