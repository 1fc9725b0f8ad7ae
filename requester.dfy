/** The requester of lib/request.ts: it tags every request with a fresh id
    and its reply queue, keeps a table of pending requests, each with an
    armed timer, and settles each request either with the correlated
    response or with a timeout, whichever comes first.

    JavaScript runs every callback to completion, so each event (a call of
    `request`, a timer firing, a response arriving) is one atomic step. */
module Requester {
  import opened Envelope
  import opened Text

  /** `RequestOptions` declares `timeoutInMs` with the literal type 5000. */
  const ConfiguredTimeoutInMs: nat := 5000

  const ReplyQueuePrefix: string := "reply-"

  /** The reply queue is named after the host: `reply-` and the lower-cased
      host name. */
  function ReplyQueueName(hostname: string): (q: string)
    ensures |q| == |ReplyQueuePrefix| + |hostname|
    ensures q[..|ReplyQueuePrefix|] == ReplyQueuePrefix
    ensures forall i :: |ReplyQueuePrefix| <= i < |q| ==> !IsUpper(q[i])
    ensures forall i :: 0 <= i < |hostname| ==> q[|ReplyQueuePrefix| + i] == LowerChar(hostname[i])
  {
    ReplyQueuePrefix + Lower(hostname)
  }

  /** Two hosts share a reply queue exactly when their names agree up to
      the case of ASCII letters. */
  lemma ReplyQueueNameIgnoresCase(h1: string, h2: string)
    ensures ReplyQueueName(h1) == ReplyQueueName(h2) <==> Lower(h1) == Lower(h2)
  {
  }

  /** `timeoutInMs ?? this.options.timeoutInMs`: only a missing value falls
      back to the configured one (an explicit 0 is kept). */
  function EffectiveTimeout(given: Option<nat>, configured: nat): (t: nat)
    ensures given.Some? ==> t == given.value
    ensures given.None? ==> t == configured
  {
    if given.Some? then given.value else configured
  }

  /** The rejection message of a request that timed out. It names the
      request and, in decimal digits, the duration that was waited; both
      can be read back from it. */
  function TimeoutMessage(requestId: string, timeoutInMs: nat): (m: string)
    ensures var start := 9 + |requestId| + 15;
            && |m| == start + |Decimal(timeoutInMs)| + 3
            && m[..9] == "Request: "
            && m[9..9 + |requestId|] == requestId
            && m[9 + |requestId|..start] == " timeout after "
            && AllDigits(m[start..|m| - 3])
            && DecimalValue(m[start..|m| - 3]) == timeoutInMs
            && m[|m| - 3..] == " ms"
  {
    var head := "Request: " + requestId;
    var prefix := head + " timeout after ";
    var digits := Decimal(timeoutInMs);
    var m := prefix + digits + " ms";
    assert |prefix| == 9 + |requestId| + 15;
    assert m[..|prefix|] == prefix && prefix[..|head|] == head;
    assert m[|prefix|..|m| - 3] == digits;
    m
  }

  /** How a call of `request` is eventually settled. Both rejections are a
      plain Error to the caller; the constructors record which path
      settled the call. */
  datatype Settlement =
    | Resolved(data: Option<Value>)                  // resolve(data)
    | Rejected(message: string, stack: Option<string>) // reject of an Error rebuilt from a reply
    | TimedOut(message: string)                      // reject of the timeout Error

  /** What `handleResponse` makes of a reply body: a truthy `success`
      resolves with `data`; otherwise an Error with message `error` (empty
      when absent, as `new Error(undefined)` has) and stack `stack`. */
  function Decode(body: ReplyBody): (s: Settlement)
    ensures s.Resolved? <==> body.success
    ensures !s.TimedOut?
    ensures s.Resolved? ==> s.data == body.data
    ensures s.Rejected? ==> s.stack == body.stack
    ensures s.Rejected? && body.error.Some? ==> s.message == body.error.value
    ensures s.Rejected? && body.error.None? ==> s.message == ""
  {
    if body.success then Resolved(body.data)
    else Rejected(if body.error.Some? then body.error.value else "", body.stack)
  }

  /** An armed timer: the callback `setTimeout` was given closes over the
      request id and the duration. */
  datatype Timer = Timer(requestId: string, timeoutInMs: nat)

  /** One entry of the settlement log: call number `call` of `request`,
      under id `requestId`, was settled with `outcome`. */
  datatype Settled = Settled(call: nat, requestId: string, outcome: Settlement)

  /** The requester's correlation state. Calls of `request` are numbered
      from 0; call `c` owns one timer (key `c` of `timers` while armed) and
      one resolve/reject pair (the entry of `pending` whose value is `c`). */
  datatype Table = Table(
    pending: map<string, nat>,
    timers: map<nat, Timer>,
    calls: nat,
    settled: seq<Settled>)

  function SettledCalls(log: seq<Settled>): set<nat> {
    set s | s in log :: s.call
  }

  lemma SettledCallsAppend(log: seq<Settled>, s: Settled)
    ensures SettledCalls(log + [s]) == SettledCalls(log) + {s.call}
  {
  }

  ghost predicate SettledAtMostOnce(log: seq<Settled>) {
    forall i, j :: 0 <= i < j < |log| ==> log[i].call != log[j].call
  }

  /** The race-free invariant: armed timers and pending entries are in
      one-to-one correspondence, every call issued so far is either still
      armed or settled but never both, and no call is settled twice. */
  ghost predicate Inv(t: Table) {
    && (forall id :: id in t.pending ==>
          t.pending[id] in t.timers && t.timers[t.pending[id]].requestId == id)
    && (forall c :: c in t.timers ==>
          t.timers[c].requestId in t.pending && t.pending[t.timers[c].requestId] == c)
    && (forall c :: c in t.timers ==> c < t.calls)
    && (forall c :: c in SettledCalls(t.settled) ==> c < t.calls && c !in t.timers)
    && (forall c :: 0 <= c < t.calls ==> c in t.timers || c in SettledCalls(t.settled))
    && SettledAtMostOnce(t.settled)
  }

  /** The table of a requester nothing has been asked of. */
  function EmptyTable(): (t: Table)
    ensures Inv(t)
  {
    Table(map[], map[], 0, [])
  }

  /** `request` under the fresh id `requestId`: arm a timer and register the
      entry, leaving every other entry alone. */
  function Register(t: Table, requestId: string, timeoutInMs: nat): (r: Table)
    requires Inv(t) && requestId !in t.pending
    ensures Inv(r)
    ensures r.pending.Keys == t.pending.Keys + {requestId}
    ensures forall id :: id in t.pending ==> r.pending[id] == t.pending[id]
    ensures r.pending[requestId] !in t.timers && r.pending[requestId] !in SettledCalls(t.settled)
    ensures r.timers.Keys == t.timers.Keys + {r.pending[requestId]}
    ensures r.timers[r.pending[requestId]] == Timer(requestId, timeoutInMs)
    ensures forall c :: c in t.timers ==> r.timers[c] == t.timers[c]
    ensures r.calls == t.calls + 1 && r.settled == t.settled
  {
    Table(t.pending[requestId := t.calls], t.timers[t.calls := Timer(requestId, timeoutInMs)],
          t.calls + 1, t.settled)
  }

  /** Settle the pending request `requestId`: its timer is no longer armed
      (fired or cleared), only its entry is removed, and the log gains one
      entry for its call. */
  function Settle(t: Table, requestId: string, outcome: Settlement): (r: Table)
    requires Inv(t) && requestId in t.pending
    ensures Inv(r)
    ensures r.pending == t.pending - {requestId}
    ensures r.timers == t.timers - {t.pending[requestId]}
    ensures r.calls == t.calls
    ensures r.settled == t.settled + [Settled(t.pending[requestId], requestId, outcome)]
  {
    var c := t.pending[requestId];
    var s := Settled(c, requestId, outcome);
    SettledCallsAppend(t.settled, s);
    var r := Table(t.pending - {requestId}, t.timers - {c}, t.calls, t.settled + [s]);
    assert forall i :: 0 <= i < |t.settled| ==> t.settled[i].call in SettledCalls(t.settled);
    r
  }

  /** The timer of call `c` fires: its request is removed and rejected with
      the timeout message. */
  function Expire(t: Table, c: nat): (r: Table)
    requires Inv(t) && c in t.timers
    ensures Inv(r)
    ensures r.pending == t.pending - {t.timers[c].requestId}
    ensures r.timers == t.timers - {c}
    ensures r.calls == t.calls
    ensures r.settled == t.settled
      + [Settled(c, t.timers[c].requestId,
                 TimedOut(TimeoutMessage(t.timers[c].requestId, t.timers[c].timeoutInMs)))]
  {
    var timer := t.timers[c];
    Settle(t, timer.requestId, TimedOut(TimeoutMessage(timer.requestId, timer.timeoutInMs)))
  }

  /** A response arrives. Without a correlation id, or with one that is not
      pending, nothing changes; otherwise exactly the entry registered under
      that id is settled with the decoded body. */
  function Respond(t: Table, correlationId: Option<string>, body: ReplyBody): (r: Table)
    requires Inv(t)
    ensures Inv(r)
    ensures correlationId.None? || correlationId.value !in t.pending ==> r == t
    ensures r.calls == t.calls
    ensures correlationId.Some? && correlationId.value in t.pending ==>
      && r.pending == t.pending - {correlationId.value}
      && r.timers == t.timers - {t.pending[correlationId.value]}
      && r.settled == t.settled
           + [Settled(t.pending[correlationId.value], correlationId.value, Decode(body))]
  {
    match correlationId
    case None => t
    case Some(requestId) =>
      if requestId in t.pending then Settle(t, requestId, Decode(body)) else t
  }

  /** The armed timers belong to exactly the pending request ids. */
  lemma ArmedTimersMatchPending(t: Table)
    requires Inv(t)
    ensures (set c | c in t.timers :: t.timers[c].requestId) == t.pending.Keys
  {
  }

  /** A response that arrives after the timeout has settled its request
      changes nothing. */
  lemma LateResponseIsNoOp(t: Table, c: nat, body: ReplyBody)
    requires Inv(t) && c in t.timers
    ensures var r := Expire(t, c);
            Respond(r, Some(t.timers[c].requestId), body) == r
  {
  }

  /** Once a response settled a request, its timer is not armed any more,
      so it can no longer fire. */
  lemma ResponseDisarmsTimer(t: Table, requestId: string, body: ReplyBody)
    requires Inv(t) && requestId in t.pending
    ensures t.pending[requestId] !in Respond(t, Some(requestId), body).timers
  {
  }

  /** A request answered before its timeout leaves the table as it was
      before the request, save the new call and its one settlement. */
  lemma RegisterThenRespond(t: Table, requestId: string, timeoutInMs: nat, body: ReplyBody)
    requires Inv(t) && requestId !in t.pending
    ensures Respond(Register(t, requestId, timeoutInMs), Some(requestId), body)
         == Table(t.pending, t.timers, t.calls + 1,
                  t.settled + [Settled(t.calls, requestId, Decode(body))])
  {
    var r := Respond(Register(t, requestId, timeoutInMs), Some(requestId), body);
    assert r.pending == t.pending;
    assert r.timers == t.timers;
  }

  /** The events the requester reacts to. */
  datatype Event =
    | Send(requestId: string, timeoutInMs: Option<nat>)
    | Fire(call: nat)
    | Deliver(correlationId: Option<string>, body: ReplyBody)

  /** One event. A timer that is not armed never fires (it was cleared or
      has already fired); a request id that is already pending cannot be
      drawn, as ids are fresh, so such a Send is skipped. */
  function Step(t: Table, e: Event, configured: nat): (r: Table)
    requires Inv(t)
    ensures Inv(r)
    ensures t.settled <= r.settled
    ensures t.calls <= r.calls
  {
    match e
    case Send(requestId, given) =>
      if requestId in t.pending then t
      else Register(t, requestId, EffectiveTimeout(given, configured))
    case Fire(c) => if c in t.timers then Expire(t, c) else t
    case Deliver(correlationId, body) => Respond(t, correlationId, body)
  }

  /** Any interleaving of requests, timer expiries and responses keeps the
      invariant, so no call is ever settled twice, and settlements are
      never withdrawn or altered. */
  function Run(t: Table, events: seq<Event>, configured: nat): (r: Table)
    requires Inv(t)
    ensures Inv(r)
    ensures t.settled <= r.settled
    ensures t.calls <= r.calls
    decreases |events|
  {
    if events == [] then t else Run(Step(t, events[0], configured), events[1..], configured)
  }

  /** Calls to the broker's administration interface. */
  datatype AdminCall = CreateQueue(name: string) | DeleteQueue(name: string)

  function SentIds(outbox: seq<RequestMessage>): set<string> {
    set m | m in outbox :: m.messageId
  }

  function SettledIds(log: seq<Settled>): set<string> {
    set s | s in log :: s.requestId
  }

  lemma SettledIdsAppend(log: seq<Settled>, s: Settled)
    ensures SettledIds(log + [s]) == SettledIds(log) + {s.requestId}
  {
    assert forall x :: x in log + [s] <==> x in log || x == s;
  }

  /** Every request sent is pending or already settled (its entry was
      registered before it went out), and every pending request was sent. */
  ghost predicate SentOnlyRegistered(t: Table, outbox: seq<RequestMessage>) {
    && (forall id :: id in SentIds(outbox) ==> id in t.pending || id in SettledIds(t.settled))
    && (forall id :: id in t.pending ==> id in SentIds(outbox))
  }

  /** Registering an id and then sending its request keeps the outbox
      consistent with the table. */
  lemma RegisterThenSend(t: Table, requestId: string, timeoutInMs: nat,
                         outbox: seq<RequestMessage>, m: RequestMessage)
    requires Inv(t) && requestId !in t.pending && SentOnlyRegistered(t, outbox)
    requires m.messageId == requestId
    ensures SentOnlyRegistered(Register(t, requestId, timeoutInMs), outbox + [m])
  {
    assert SentIds(outbox + [m]) == SentIds(outbox) + {requestId} by {
      assert forall x :: x in outbox + [m] <==> x in outbox || x == m;
    }
  }

  /** Settling moves an id from the pending table to the log, so the
      outbox stays consistent with the table. */
  lemma SettleKeepsSent(t: Table, requestId: string, outcome: Settlement,
                        outbox: seq<RequestMessage>)
    requires Inv(t) && requestId in t.pending && SentOnlyRegistered(t, outbox)
    ensures SentOnlyRegistered(Settle(t, requestId, outcome), outbox)
  {
    SettledIdsAppend(t.settled, Settled(t.pending[requestId], requestId, outcome));
  }

  /** The class `Request`. The broker is represented by the set of queues
      that exist, the log of administration calls and the outbox of sent
      requests; the resolve/reject pair of each call is represented by the
      ghost settlement log. */
  class Request {
    const requestQueue: string
    const replyQueue: string
    const timeoutInMs: nat

    var pending: map<string, nat>
    var timers: map<nat, Timer>
    var calls: nat
    ghost var settled: seq<Settled>

    var receiver: Option<string>
    var subscribed: bool
    var queues: set<string>
    var adminLog: seq<AdminCall>
    var outbox: seq<RequestMessage>

    ghost function Snapshot(): Table
      reads this
    {
      Table(pending, timers, calls, settled)
    }

    /** Besides the table's invariant: every request sent is pending or
        already settled (its entry was registered before it went out), every
        pending request has been sent, and the receiver reads the reply
        queue. */
    ghost predicate Valid()
      reads this
    {
      && Inv(Snapshot())
      && SentOnlyRegistered(Snapshot(), outbox)
      && (receiver.Some? ==> receiver.value == replyQueue)
    }

    constructor (requestQueue: string, hostname: string, existingQueues: set<string>)
      ensures Valid()
      ensures this.requestQueue == requestQueue
      ensures replyQueue == ReplyQueueName(hostname)
      ensures timeoutInMs == ConfiguredTimeoutInMs
      ensures Snapshot() == EmptyTable()
      ensures receiver == None && !subscribed
      ensures queues == existingQueues && adminLog == [] && outbox == []
    {
      this.requestQueue := requestQueue;
      replyQueue := ReplyQueueName(hostname);
      timeoutInMs := ConfiguredTimeoutInMs;
      pending, timers, calls, settled := map[], map[], 0, [];
      receiver, subscribed := None, false;
      queues, adminLog, outbox := existingQueues, [], [];
    }

    /** Create the reply queue if the broker lacks it, and the receiver,
        both only while there is no receiver yet; a second call changes
        nothing. */
    method AssertReceiverQueue()
      requires Valid()
      modifies this
      ensures Valid()
      ensures old(receiver).Some? ==>
        receiver == old(receiver) && queues == old(queues) && adminLog == old(adminLog)
      ensures old(receiver).None? ==>
        && receiver == Some(replyQueue)
        && queues == old(queues) + {replyQueue}
        && adminLog == old(adminLog)
             + (if replyQueue in old(queues) then [] else [CreateQueue(replyQueue)])
      ensures Snapshot() == old(Snapshot()) && outbox == old(outbox)
      ensures subscribed == old(subscribed)
    {
      if receiver.None? {
        if replyQueue !in queues {
          queues := queues + {replyQueue};
          adminLog := adminLog + [CreateQueue(replyQueue)];
        }
        receiver := Some(replyQueue);
      }
    }

    /** Make sure the reply queue and receiver exist, then subscribe to
        responses. */
    method Start()
      requires Valid()
      modifies this
      ensures Valid()
      ensures receiver == Some(replyQueue) && subscribed
      ensures old(receiver).Some? ==> queues == old(queues) && adminLog == old(adminLog)
      ensures old(receiver).None? ==>
        && queues == old(queues) + {replyQueue}
        && adminLog == old(adminLog)
             + (if replyQueue in old(queues) then [] else [CreateQueue(replyQueue)])
      ensures Snapshot() == old(Snapshot()) && outbox == old(outbox)
    {
      AssertReceiverQueue();
      subscribed := true;
    }

    /** `request(payload, timeoutInMs)` with `requestId` the fresh id drawn
        for it. The entry is registered before the message is sent, so by
        the time the request is out its id is pending. Returns the number of
        the call, which stands for the returned Promise. */
    method Request(payload: Value, requestId: string, given: Option<nat>) returns (call: nat)
      requires Valid() && requestId !in pending
      modifies this
      ensures Valid()
      ensures call == old(calls)
      ensures Snapshot() == Register(old(Snapshot()), requestId, EffectiveTimeout(given, timeoutInMs))
      ensures outbox == old(outbox) + [RequestMessage(requestId, replyQueue, payload)]
      ensures receiver == old(receiver) && subscribed == old(subscribed)
      ensures queues == old(queues) && adminLog == old(adminLog)
    {
      var duration := EffectiveTimeout(given, timeoutInMs);
      var request := RequestMessage(requestId, replyQueue, payload);
      ghost var next := Register(Snapshot(), requestId, duration);
      RegisterThenSend(Snapshot(), requestId, duration, outbox, request);
      call := calls;
      timers := timers[call := Timer(requestId, duration)];
      calls := calls + 1;
      pending := pending[requestId := call];
      outbox := outbox + [request];
      assert Snapshot() == next;
    }

    /** The timer of call `call` fires; possible only while it is armed. */
    method FireTimeout(call: nat)
      requires Valid() && call in timers
      modifies this
      ensures Valid()
      ensures Snapshot() == Expire(old(Snapshot()), call)
      ensures outbox == old(outbox) && receiver == old(receiver) && subscribed == old(subscribed)
      ensures queues == old(queues) && adminLog == old(adminLog)
    {
      var timer := timers[call];
      SettleEntry(timer.requestId, TimedOut(TimeoutMessage(timer.requestId, timer.timeoutInMs)));
    }

    /** A message arrives on the reply queue. */
    method HandleResponse(correlationId: Option<string>, body: ReplyBody)
      requires Valid()
      modifies this
      ensures Valid()
      ensures Snapshot() == Respond(old(Snapshot()), correlationId, body)
      ensures outbox == old(outbox) && receiver == old(receiver) && subscribed == old(subscribed)
      ensures queues == old(queues) && adminLog == old(adminLog)
    {
      if correlationId.None? {
        return;
      }
      var requestId := correlationId.value;
      if requestId !in pending {
        return;
      }
      SettleEntry(requestId, Decode(body));
    }

    /** What both the timer callback and `handleResponse` do to a pending
        entry: the timer is no longer armed (it fired, or `clearTimeout`
        cancels it), the entry is deleted and the call is settled. */
    method SettleEntry(requestId: string, outcome: Settlement)
      requires Valid() && requestId in pending
      modifies this`pending, this`timers, this`settled
      ensures Valid()
      ensures Snapshot() == Settle(old(Snapshot()), requestId, outcome)
    {
      var call := pending[requestId];
      ghost var next := Settle(Snapshot(), requestId, outcome);
      SettleKeepsSent(Snapshot(), requestId, outcome, outbox);
      timers := timers - {call};
      settled := settled + [Settled(call, requestId, outcome)];
      pending := pending - {requestId};
      assert Snapshot() == next;
    }

    /** Release the transport; the reply queue is deleted only when a
        receiver was created. Pending requests are left to their timers. */
    method Close()
      requires Valid()
      modifies this
      ensures Valid()
      ensures old(receiver).Some? ==>
        queues == old(queues) - {replyQueue} && adminLog == old(adminLog) + [DeleteQueue(replyQueue)]
      ensures old(receiver).None? ==> queues == old(queues) && adminLog == old(adminLog)
      ensures Snapshot() == old(Snapshot()) && outbox == old(outbox)
      ensures receiver == old(receiver) && subscribed == old(subscribed)
    {
      if receiver.Some? {
        queues := queues - {replyQueue};
        adminLog := adminLog + [DeleteQueue(replyQueue)];
      }
    }
  }
}
