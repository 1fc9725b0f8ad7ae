/** Requester and responder wired together through their outboxes: the
    three usage scenarios of the system, derived from the contracts alone. */
module Scenarios {
  import opened Envelope
  import opened Requester
  import opened Responder
  import opened Text

  /** The responder answers in time: the request resolves with the reply. */
  method ReplyInTime() {
    var requester := new Request("requests", "Host-1", {});
    requester.Start();
    var call := requester.Request(Plain("{value: 1}"), "id-1", Some(100));
    var request := requester.outbox[0];
    var responder := new Reply("requests", (p: Value) => Returned(Plain("reply to 1")));
    var unhandled := responder.HandleRequest(request, Delivered, Delivered);
    DeliveredOfAtMostTwo(Attempts(Returned(Plain("reply to 1")), "id-1", requester.replyQueue,
                                  Delivered, Delivered));
    assert unhandled == None;
    var reply := responder.outbox[0];
    assert reply.queue == requester.replyQueue;
    requester.HandleResponse(Some(reply.correlationId), reply.body);
    assert requester.settled == [Settled(call, "id-1", Resolved(Some(Plain("reply to 1"))))];
    assert requester.pending == map[] && requester.timers == map[];
  }

  /** The timer fires first: the request is rejected with the timeout
      message, and the late reply changes nothing. */
  method ReplyTooLate() {
    var requester := new Request("requests", "Host-1", {});
    requester.Start();
    var call := requester.Request(Plain("{value: 1}"), "id-1", Some(100));
    var request := requester.outbox[0];
    requester.FireTimeout(call);
    var responder := new Reply("requests", (p: Value) => Returned(Plain("reply to 1")));
    var unhandled := responder.HandleRequest(request, Delivered, Delivered);
    DeliveredOfAtMostTwo(Attempts(Returned(Plain("reply to 1")), "id-1", requester.replyQueue,
                                  Delivered, Delivered));
    var reply := responder.outbox[0];
    requester.HandleResponse(Some(reply.correlationId), reply.body);
    assert requester.settled
        == [Settled(call, "id-1", TimedOut(TimeoutMessage("id-1", 100)))];
  }

  /** The handler throws: the caller is rejected with the handler's
      message and stack. */
  method HandlerThrows() {
    var requester := new Request("requests", "Host-1", {});
    requester.Start();
    var call := requester.Request(Plain("{value: 1}"), "id-1", None);
    assert requester.timers[call].timeoutInMs == 5000;
    var request := requester.outbox[0];
    var responder := new Reply("requests", (p: Value) => Threw("boom", "Error: boom"));
    var unhandled := responder.HandleRequest(request, Delivered, Delivered);
    DeliveredOfAtMostTwo(Attempts(Threw("boom", "Error: boom"), "id-1", requester.replyQueue,
                                  Delivered, Delivered));
    var reply := responder.outbox[0];
    requester.HandleResponse(Some(reply.correlationId), reply.body);
    assert requester.settled == [Settled(call, "id-1", Rejected("boom", Some("Error: boom")))];
  }
}
