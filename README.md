# Request/reply correlation over a queue transport

This project models the correlation engine of a small TypeScript library
that gives request/reply semantics on top of Azure Service Bus queues.

- **Requester** (`class Request`, lib/request.ts). It draws a fresh request
  id for every `request` call. It arms a timer, registers a pending entry and
  sends the request with `messageId = requestId` and `replyTo` set to its
  per-host reply queue (`reply-<hostname>`). It then settles the call exactly
  once. A matching reply from the reply queue resolves with `data` or rejects
  with the relayed error. The timer firing first rejects with
  `Request: <id> timeout after <t> ms`. A late or unknown reply is dropped.
- **Responder** (`class Reply`, lib/reply.ts). It hands every request to the
  application handler. It sends `{success: true, data}` or
  `{success: false, error, stack}` to the request's `replyTo`, with
  `correlationId = messageId`. It sends through a sender cached per reply
  queue. Whatever the handler throws, or the send of its value throws, is
  wrapped in a `RequestHandlerError` that keeps the request's id and reply
  queue, and is answered with a failure reply. An error from sending that
  failure reply is not answered: it escapes the "error" listener.

JavaScript runs each callback to completion, so every event is one atomic
step: a `request` call, a timer firing, a response arriving, a request
arriving at the responder.

Files and modules:

- `text.dfy`, module `Text`: decimal rendering of a number, as a template
  literal prints it, and ASCII lower-casing.
- `envelope.dfy`, module `Envelope`: the wire types both roles share
  (payload values, reply bodies, request messages).
- `requester.dfy`, module `Requester`: the pure correlation table `Table`
  with its invariant `Inv` and step functions (`Register`, `Settle`, `Expire`,
  `Respond`, `Step`, `Run`). It also holds the class `Request`, whose methods
  are specified by those step functions through the ghost `Snapshot()`.
- `responder.dfy`, module `Responder`: reply-body construction, the reply
  attempts for one request (`Attempts`), and the class `Reply` with its
  sender cache.
- `correlation.dfy`, module `Correlation`: the round trip from the
  responder's reply body back to the requester's settlement.
- `scenarios.dfy`, module `Scenarios`: the two classes wired together. It
  covers a reply in time, a reply after the timeout, and a handler that
  throws. Each scenario is proved from the method contracts alone.

How the outside world is represented:

- The broker is a set of existing queue names, a log of administration calls
  and outboxes of sent messages.
- Sender handles are values numbered in creation order.
- The resolve/reject pair of each `request` call is a ghost settlement log
  indexed by call number.
- Timers are the map `timers` of armed timers, keyed by call number. Expiry
  is the event `FireTimeout`, enabled only while that timer is armed.
- The fresh id (`randomUUID`) and the host name (`hostname()`) are
  parameters. The outcome of each reply send is a parameter too: either it
  succeeded and the message was enqueued, or it was rejected and nothing
  was enqueued.
- The handler is a total function from payload to `Returned(value)` or
  `Threw(message, stack)`.

`RequestOptions` declares `timeoutInMs` with the literal type `5000`, so the
configured default is the constant 5000.

## Model

| member | source | states |
|---|---|---|
| `Text.Decimal` | lib/request.ts:80 | `${timeoutInMs}` gives canonical decimal digits (non-empty, no leading zero) whose value is the number |
| `Text.LowerChar` | lib/request.ts:48 | an upper-case ASCII letter moves to its lower-case letter, every other character stays as is, and the result is never upper-case |
| `Text.Lower` | lib/request.ts:48 | `toLowerCase` keeps the length and lower-cases each character in place |
| `Requester.ReplyQueueName` | lib/request.ts:48 | the reply queue name is `reply-` and then the host name lower-cased: one character per host-name character, each that character lower-cased, none upper-case |
| `Requester.ReplyQueueNameIgnoresCase` | lib/request.ts:48 | two hosts get the same reply queue exactly when their names are equal after lower-casing |
| `Requester.EffectiveTimeout` | lib/request.ts:74 | `timeoutInMs ?? this.options.timeoutInMs`: a given timeout is used as it is, even 0; only a missing one falls back to the configured default |
| `Requester.TimeoutMessage` | lib/request.ts:79-81 | the timeout message is `Request: <id> timeout after <t> ms`; the id and the duration can both be read back from it |
| `Requester.Decode` | lib/request.ts:114-121 | a truthy `success` resolves with `data`; otherwise the rejection carries `error` (empty when absent) as message and `stack` as stack; a reply is never logged as the timeout path |
| `Requester.EmptyTable` | lib/request.ts:27-34 | a new requester's empty table satisfies the race-free invariant |
| `Requester.Register` | lib/request.ts:72-84 | a request adds exactly one entry under the fresh id, leaves other entries alone, arms one new timer carrying the id and duration, settles nothing, and keeps the invariant |
| `Requester.Settle` | lib/request.ts:111-123 | settling removes only that id's entry and that call's timer, logs exactly one settlement for the call, and keeps the invariant |
| `Requester.Expire` | lib/request.ts:77-82 | a firing timer removes its request's entry and logs a rejection with `Request: <id> timeout after <t> ms` for that call |
| `Requester.Respond` | lib/request.ts:101-124 | a missing or unknown correlation id changes nothing; a pending one settles exactly the entry registered under it, with the decoded body, and disarms its timer |
| `Requester.RegisterThenRespond` | lib/request.ts:84-123 | a request answered before its timeout leaves the pending table and timers as they were before it, with one settlement for the new call |
| `Requester.RegisterThenSend` | lib/request.ts:84-93 | registering an id and then sending its request keeps every sent id pending or settled, and every pending id sent |
| `Requester.SettleKeepsSent` | lib/request.ts:78-123 | settling keeps every sent id pending or settled, and every pending id sent |
| `Requester.ArmedTimersMatchPending` | lib/request.ts:77-84 | the request ids of the armed timers are exactly the keys of the pending table |
| `Requester.LateResponseIsNoOp` | lib/request.ts:104-109 | a reply arriving after its request timed out leaves the table, timers and settlements unchanged |
| `Requester.ResponseDisarmsTimer` | lib/request.ts:111-112 | after a reply settles a request, that request's timer is no longer armed, so it cannot fire |
| `Requester.Step` | lib/request.ts:72-123 | every event keeps the invariant and never withdraws or alters a settlement |
| `Requester.Run` | lib/request.ts:72-123 | over any interleaving of requests, timer expiries and replies, each call stays armed or is settled exactly once |
| `Requester.Request.constructor` | lib/request.ts:36-49 | a new requester has an empty table, no receiver, the host-derived reply queue and the 5000 ms default |
| `Requester.Request.AssertReceiverQueue` | lib/request.ts:51-60 | the reply queue is created only if the broker lacks it, and the receiver only while there is none; with a receiver nothing changes |
| `Requester.Request.Start` | lib/request.ts:62-70 | after start the receiver reads the reply queue and responses are subscribed to |
| `Requester.Request.Request` | lib/request.ts:72-95 | the table changes as `Register` says, with the given timeout or else the default; one message `{messageId: id, replyTo: replyQueue, body: payload}` is sent, after the entry exists |
| `Requester.Request.FireTimeout` | lib/request.ts:77-82 | enabled only while the timer is armed; the table changes as `Expire` says |
| `Requester.Request.HandleResponse` | lib/request.ts:101-124 | the table changes as `Respond` says; nothing else changes |
| `Requester.Request.SettleEntry` | lib/request.ts:111-123 | the timer is disarmed, only that entry is deleted and the call is settled, as `Settle` says |
| `Requester.Request.Close` | lib/request.ts:126-135 | the reply queue is deleted only when a receiver was created; pending requests and timers stay as they are |
| `Responder.ReplyBodyFor` | lib/reply.ts:63-66 | an Error payload gives `{success: false, error: message, stack}`, any other payload `{success: true, data: payload}` |
| `Responder.Wrap` | lib/reply.ts:17-24 | a `RequestHandlerError`, read as an Error, is the error it wraps (same message and stack), and it carries the given request id and reply queue |
| `Responder.FailureReply` | lib/reply.ts:87-91 | the failure reply for a `RequestHandlerError` goes to its own `replyTo`, correlated by its own `requestId`, with a failure body of its message and stack |
| `Responder.Attempts` | lib/reply.ts:74-91 | a handler that throws gets one failure reply; a returned value gets its reply, and a second, failure reply with the send error if that send failed; every attempt goes to `replyTo` with `correlationId = requestId` |
| `Responder.AtMostOneReplyDelivered` | lib/reply.ts:79-91 | at most one reply send per request succeeds, and exactly one when the last attempt succeeds |
| `Responder.CacheWith` | lib/reply.ts:94-98 | a lookup adds exactly the looked-up queue to the cache keys; every cached sender keeps its entry; a queue not yet cached gets the sender created next, bound to that queue |
| `Responder.Reply.constructor` | lib/reply.ts:30-45 | a new responder has an empty sender cache and has sent nothing |
| `Responder.Reply.GetReplyQueue` | lib/reply.ts:93-101 | a cached queue returns its sender unchanged; a new one creates one sender, stores it under the name and returns it; other keys stay as they are, and over all calls at most one sender is created per name |
| `Responder.Reply.RespondToRequest` | lib/reply.ts:57-72 | the body for the payload is sent via the sender for `replyTo` with `correlationId = requestId`; a failed send is returned as an error |
| `Responder.Reply.ProcessRequest` | lib/reply.ts:74-85 | a handler throw becomes a `RequestHandlerError` with its message, stack, id and reply queue; a returned value is replied, and a failed send is rethrown wrapped the same way |
| `Responder.Reply.ProcessRequestError` | lib/reply.ts:87-91 | only a `RequestHandlerError` is answered, with its failure reply; any other error sends nothing; a failed send of the failure reply escapes the listener and is returned |
| `Responder.Reply.HandleRequest` | lib/reply.ts:103-108 | the request's body, id and reply queue are forwarded unchanged; the replies sent are exactly the delivered ones among `Attempts`; an error escapes exactly when the last attempt was not delivered, and it is that send's error |
| `Correlation.ReplyBodyRoundTrip` | lib/reply.ts:63-66 | the body the responder writes decodes, on the requester's side, to the handler's value or to its error's message and stack |
| `Correlation.RequestReplyRoundTrip` | lib/request.ts:84-123 | a registered request gets at most one delivered reply on its reply queue; handling it settles exactly the new call and restores the table. The settlement is the handler's value or error, or the send error when sending the value failed and the failure reply got through |

## Left out

- The Azure Service Bus and identity clients are not modelled: client construction, the namespace string, `createSender`/`createReceiver`, `subscribe`, the `close` calls and the responder's `start`/`end`. They are foreign I/O. Administration calls never fail in the model. `Requester.Request.Close` accepts a second call, because `receiver` stays set, and logs a second `DeleteQueue` that succeeds. In the source that second `deleteQueue` fails, because the queue is already gone.
- Real timers are not modelled. Durations are not measured, and Node's clamping of out-of-range delays is left out. Expiry is the `FireTimeout` event.
- Promises and `async` suspension are not modelled. Each method is one atomic step, although `assertReceiverQueue` awaits between its existence check and its creation, so two overlapping `start` calls could both try to create the queue. If the queue already exists, both pass the receiver check at lib/request.ts:52 before the `await` at line 53, and both assign `this.receiver` at line 58. The first receiver is then never closed.
- In `request`, `sendMessages` is taken to succeed. When it throws inside the Promise executor, the rejection goes unhandled. Under Node's default policy that ends the process. Only when the process survives (for example, an `unhandledRejection` handler is installed) does the entry linger until its timer fires. That path is not modelled.
- A `null` or `undefined` reply body (destructuring it throws) is not modelled. A primitive body does not throw: every field reads as `undefined`, which is `ReplyBody(false, None, None, None)` and decodes to a rejection with message "" and no stack. In the source, for a pending id whose body is `null` or `undefined`, lib/request.ts:112 clears the timer and line 114 then throws before line 123 deletes the entry. That entry then stays pending with no armed timer, and the call never settles. `Requester.ArmedTimersMatchPending` does not hold on that path. Neither are a `correlationId` or `messageId` that is not a string (`String(...)` conversion), nor a received request without `replyTo`.
- A handler that throws something other than an Error is not modelled. Every throw carries a message and a stack.
- `Requester.Decode`: in the source, both a timeout (lib/request.ts:79-81) and a relayed error (lines 118-120) reject with a plain `Error`. The caller can tell them apart only by the message text, and a handler that throws an Error with the text `Request: <id> timeout after <t> ms` gives the caller exactly a real timeout's message. The separate `TimedOut` settlement records only which path settled the call in the model's ghost log. The timeout Error's own stack is not recorded.
- `Responder.AtMostOneReplyDelivered`: a rejected send is taken to have enqueued nothing. If `sendMessages` rejects after the broker accepted the message (a lost acknowledgement), lib/reply.ts:81-89 sends a second, failure reply to the same queue, and the requester drops it at lib/request.ts:108-109.
- `Text.Decimal` covers non-negative integral durations only. JavaScript prints numbers from 10^21 upward, fractions and negative numbers differently.
- `Text.Lower` lower-cases ASCII letters only. JavaScript's `toLowerCase` also maps non-ASCII letters.
- `handleError` and all logging only write to the console, so they are not modelled.
- `HandleResponse` does not require a subscription; in the source, responses arrive only through it.
- The demo scripts reply.ts, sender.ts and test.ts are not part of this model. Their reply body shape (`{data, status: 'ok'}`) is not the protocol of lib/reply.ts.
- `close` (lib/request.ts:126-135) neither rejects nor clears pending requests. Their entries and timers survive, and the timers still fire. The model does the same.
- The reply queue name is always derived from the host name (lib/request.ts:48). It cannot be configured.
- An error from sending the failure reply (lib/reply.ts:89) rejects the promise of the "error" listener. Nothing catches that rejection, and under Node's default policy an unhandled rejection ends the process. The model returns the error from `ProcessRequestError` and `HandleRequest`. It does not model the process ending.
