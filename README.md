# Reliability layer of the jCoAP socket handler

This project models `BasicCoapSocketHandler` in Dafny. This class is the UDP
endpoint of jCoAP (a Java implementation of CoAP). Its worker thread keeps
the message-layer bookkeeping that makes CoAP reliable over UDP:

- **Duplicate detection.** Inbound message keys (message id, peer address,
  peer port) are remembered in `duplicateMap`.
- **Reply replay.** Every ACK and RST sent is cached in `retransMsgMap`. A
  duplicate inbound message is answered from that cache.
- **Retransmission of confirmable messages (CON).** A pending CON is kept
  in `nonConfirmedMsgMap` and its timer is queued in `timeoutQueue`, a
  priority queue ordered by expiry. When the timer expires the CON is resent,
  until the message reaches its maximum number of transmissions. The
  channel is then told that the connection is lost.
- **Confirmation.** A first-seen non-CON that reaches a channel retires the
  pending CON with its key. An ACK or RST from a peer with no channel is
  ignored before that point and retires nothing, and so does a duplicate.
  The retired CON's timer is not removed from the queue. It is discarded
  when it expires and finds nothing pending.
- **Per-peer channel table.** `channels` holds at most one channel per peer.
  It is filled by `connect`, and by the channel manager when a CON or NON
  arrives from an unknown peer.

The model has two layers.

- **Module `Reliability`** gives every operation as a function on a value
  `HandlerState`. Side effects become logs: datagrams handed to the socket
  (`transmitted`), messages handed to a channel (`delivered`), and
  `lostConnection(true, false)` notifications (`lost`). The invariant
  `WellFormed` states five things:
  - the timer queue is ordered by expiry;
  - the unconfirmed store holds only CONs, each under its own key and within
    the retransmission maximum;
  - the reply cache holds only ACKs and RSTs under their own keys;
  - channels are indexed by their own peer;
  - every delivered key has been seen, and no key was delivered twice.

  Every operation preserves `WellFormed`.
- **Class `SocketHandler.BasicCoapSocketHandler`** holds the same state as
  fields and updates them in place, as the Java worker does. Each method is
  proved to perform the corresponding transition of `Reliability` on its
  view `Core()`.
- **Module `HandlerProperties`** states properties over several operations:
  - arbitrary runs of events never deliver a key twice, and never deliver a
    key seen before the run. This holds within the retention window of the
    Java stores, since the model's stores never forget (see Left out);
  - a CON that is never confirmed is resent, as itself with rising counters
    and non-shrinking timeouts, exactly until its maximum, and then reported
    lost once; the expiry of its timer is one such resend. This too holds
    only while each back-off interval stays within the retention window of
    the Java stores (see Left out);
  - confirmation cancels a pending resend;
  - a duplicate CON is not delivered again and gets the cached ACK replayed;
  - after a successful `connect` to a peer, any later `connect` to that
    peer returns null, unless the peer's channel was removed in between;
    after `removeChannel` a new `connect` succeeds again.

Things outside the handler are parameters of the model:
- The clock is the argument `now`, one reading per timer pass.
- The channel manager's answer to `createServerChannel` is a `Creation`: a
  channel, a refusal (null) or an exception.
- The parser's result is an `Option<Message>` (None when parsing throws).
- The identity of a newly allocated client channel is a counter,
  `channelsCreated`.

## How the code behaves where its comments say otherwise

- **A refused CON is dropped silently.** When the channel manager refuses a
  new peer, it returns null. `addChannel(null)` then dereferences null
  (BasicCoapSocketHandler.java:438). The exception is caught by the handler
  meant for `createServerChannel` failures (:219-223), and the method
  returns. So the reset branch at :225-233 never runs, including the
  `IllegalStateException` meant for a refused CON. The model follows the
  code: refusal and failure are the same outcome. The message's key
  nevertheless stays recorded as seen. `RefusedMessageNeverDelivered` shows
  the consequence: a retransmission of that message is never delivered.
- **`sendMessage` keeps the message id.** Its doc comment (:465-468) says
  the message gets a new id. The body only queues the message, so
  `SendMessage` keeps the message exactly as given.

## Model

| member | source | states |
|---|---|---|
| CoapTypes.IncRetransCounterAndTimeout | ws4d-jcoap/src/org/ws4d/coap/connection/BasicCoapSocketHandler.java:296 | one more transmission: the counter rises by one and the timeout backs off (positive, never smaller); id, type and channel are unchanged |
| TimeoutQueue.Insert | ws4d-jcoap/src/org/ws4d/coap/connection/BasicCoapSocketHandler.java:298-299 | adding a timer keeps the queue ordered by expiry and adds exactly that entry |
| TimeoutQueue.InsertAddsOne | ws4d-jcoap/src/org/ws4d/coap/connection/BasicCoapSocketHandler.java:299 | the queue after `add` is the old queue plus the new entry, as multisets: nothing is lost or duplicated |
| Reliability.InitialWellFormed | ws4d-jcoap/src/org/ws4d/coap/connection/BasicCoapSocketHandler.java:86-94 | the freshly created stores, queue and channel table satisfy the invariant |
| Reliability.Send | ws4d-jcoap/src/org/ws4d/coap/connection/BasicCoapSocketHandler.java:279-316 | null is a no-op. A CON at its maximum is removed from the unconfirmed store and reported lost once; nothing is sent. ACK/RST are cached under their key and sent. NON is only sent. No timer is ever lost. Seen keys, channels and deliveries are unchanged. (A CON below its maximum: HandlerProperties.SendConSchedulesOnce) |
| Reliability.Schedule | ws4d-jcoap/src/org/ws4d/coap/connection/BasicCoapSocketHandler.java:296-300 | a CON below its maximum is stored under its key with counter + 1 and a positive, non-shrinking timeout; one timer for that key at now + timeout is inserted; the advanced message is sent to its peer; the new timer is not yet due |
| Reliability.AddChannel | ws4d-jcoap/src/org/ws4d/coap/connection/BasicCoapSocketHandler.java:437-439 | the channel is registered under its own peer; every other peer's entry and all other state are unchanged |
| Reliability.RemoveChannel | ws4d-jcoap/src/org/ws4d/coap/connection/BasicCoapSocketHandler.java:447-450 | the entry for the channel's peer is gone, whichever channel it held; every other peer's entry and all other state are unchanged |
| Reliability.Connect | ws4d-jcoap/src/org/ws4d/coap/connection/BasicCoapSocketHandler.java:499-516 | a channel is returned exactly when a client is given and the peer has no channel yet; then a channel for exactly that peer is added and nothing else changes; otherwise null and no change |
| Reliability.Deliver | ws4d-jcoap/src/org/ws4d/coap/connection/BasicCoapSocketHandler.java:242-251 | the message, bound to the channel, is appended to the deliveries under its key; a non-CON retires the pending CON with that key and a CON leaves the unconfirmed store alone; the invariant is kept, given that the key is seen and was not delivered before |
| Reliability.Receive | ws4d-jcoap/src/org/ws4d/coap/connection/BasicCoapSocketHandler.java:185-252 | an unparsable datagram changes nothing. A duplicate is not delivered and changes no store or channel; it only replays the cached reply for its key, if there is one. A first-seen key is recorded before the channel lookup and nothing is sent. A known peer's channel receives the message. An unknown peer gets a channel only for a CON/NON that the manager accepts. A refused or failed creation, or an ACK/RST from an unknown peer, delivers nothing and retires nothing. A delivered non-CON retires the pending CON with its key. New deliveries carry keys not seen before |
| Reliability.SendAll | ws4d-jcoap/src/org/ws4d/coap/connection/BasicCoapSocketHandler.java:177-183 | draining the buffer through sendMsg preserves the invariant and changes no seen key, channel or delivery; the logs only grow |
| Reliability.FireTimeout | ws4d-jcoap/src/org/ws4d/coap/connection/BasicCoapSocketHandler.java:270-274 | the expired head timer is polled. If its key is pending, the result is exactly Send of the pending message on the popped state; a stale timer is discarded with no other effect. Timers not yet due are kept. The number of due timers strictly falls |
| Reliability.HandleTimeouts | ws4d-jcoap/src/org/ws4d/coap/connection/BasicCoapSocketHandler.java:254-277 | after the pass no timer is due and every timer that was not due is still queued. The answer is POLLING_INTERVALL for an empty queue, otherwise the time until the earliest timer; it is the minimum over the queue and always positive |
| Reliability.Cycle | ws4d-jcoap/src/org/ws4d/coap/connection/BasicCoapSocketHandler.java:131-167 | one loop iteration keeps the invariant and delivers at most one message. Afterwards no timer is due, and the selector wait is positive: POLLING_INTERVALL or the time to the earliest timer |
| SocketHandler.BasicCoapSocketHandler.constructor | ws4d-jcoap/src/org/ws4d/coap/connection/BasicCoapSocketHandler.java:86-94 | a new worker has empty stores, queue, buffer and channel table |
| SocketHandler.BasicCoapSocketHandler.AddMessageToSendBuffer | ws4d-jcoap/src/org/ws4d/coap/connection/BasicCoapSocketHandler.java:171-175 | the message joins the tail of the send buffer; nothing else changes |
| SocketHandler.BasicCoapSocketHandler.SendMessage | ws4d-jcoap/src/org/ws4d/coap/connection/BasicCoapSocketHandler.java:469-474 | the message is queued exactly as given (no new id); nothing else changes |
| SocketHandler.BasicCoapSocketHandler.SendMsg | ws4d-jcoap/src/org/ws4d/coap/connection/BasicCoapSocketHandler.java:279-316 | updates the fields in place exactly as Reliability.Send, keeping the invariant |
| SocketHandler.BasicCoapSocketHandler.SendBufferedMessages | ws4d-jcoap/src/org/ws4d/coap/connection/BasicCoapSocketHandler.java:177-183 | the buffer ends empty, and the state is what sending its old contents in FIFO order gives (Reliability.SendAll) |
| SocketHandler.BasicCoapSocketHandler.GetChannel | ws4d-jcoap/src/org/ws4d/coap/connection/BasicCoapSocketHandler.java:318-320 | a channel is answered exactly when one is registered for the peer, and it is that peer's channel |
| SocketHandler.BasicCoapSocketHandler.AddChannel | ws4d-jcoap/src/org/ws4d/coap/connection/BasicCoapSocketHandler.java:437-439 | in-place registration, exactly as Reliability.AddChannel |
| SocketHandler.BasicCoapSocketHandler.RemoveChannel | ws4d-jcoap/src/org/ws4d/coap/connection/BasicCoapSocketHandler.java:447-450 | in-place removal, exactly as Reliability.RemoveChannel |
| SocketHandler.BasicCoapSocketHandler.Connect | ws4d-jcoap/src/org/ws4d/coap/connection/BasicCoapSocketHandler.java:499-516 | answers and updates exactly as Reliability.Connect; a new channel object is allocated only when one is returned |
| SocketHandler.BasicCoapSocketHandler.HandleIncomingMessage | ws4d-jcoap/src/org/ws4d/coap/connection/BasicCoapSocketHandler.java:185-252 | updates the fields in place exactly as Reliability.Receive |
| SocketHandler.BasicCoapSocketHandler.Deliver | ws4d-jcoap/src/org/ws4d/coap/connection/BasicCoapSocketHandler.java:242-251 | in-place delivery exactly as Reliability.Deliver |
| SocketHandler.BasicCoapSocketHandler.HandleTimeouts | ws4d-jcoap/src/org/ws4d/coap/connection/BasicCoapSocketHandler.java:254-277 | the loop's final state and answer are exactly those of Reliability.HandleTimeouts |
| SocketHandler.BasicCoapSocketHandler.FireTimeout | ws4d-jcoap/src/org/ws4d/coap/connection/BasicCoapSocketHandler.java:270-274 | polls the head timer and resends in place, exactly as Reliability.FireTimeout |
| SocketHandler.BasicCoapSocketHandler.RunCycle | ws4d-jcoap/src/org/ws4d/coap/connection/BasicCoapSocketHandler.java:131-167 | one loop iteration, exactly as Reliability.Cycle on the buffered messages; the buffer ends empty |
| HandlerProperties.Step | ws4d-jcoap/src/org/ws4d/coap/connection/BasicCoapSocketHandler.java:126-169 | any single event keeps the invariant, loses no seen key, only appends deliveries, delivers only keys not seen before it, and removes no peer from the channel table unless it unregisters that peer's channel |
| HandlerProperties.Run | ws4d-jcoap/src/org/ws4d/coap/connection/BasicCoapSocketHandler.java:198-208 | over any run of events the invariant holds (so no key is delivered twice), and no key seen before the run is delivered during it |
| HandlerProperties.Retransmissions | ws4d-jcoap/src/org/ws4d/coap/connection/BasicCoapSocketHandler.java:272-274 | repeated expiry of one key's timer keeps the invariant and only appends to the logs |
| HandlerProperties.FireTimeoutRetransmits | ws4d-jcoap/src/org/ws4d/coap/connection/BasicCoapSocketHandler.java:270-274 | the expiry of the head timer in the timer pass is exactly one Retransmissions step for its key on the popped state |
| HandlerProperties.RetransmissionsIgnoreQueue | ws4d-jcoap/src/org/ws4d/coap/connection/BasicCoapSocketHandler.java:265-274 | every field but the timer queue after any number of expiries for a key is the same whatever the queue and the clock reading. Applied one step at a time with FireTimeoutRetransmits, it shows that chains of head-timer expiries at changing clock readings yield the stores and logs of Retransmissions |
| HandlerProperties.RetransmitUntilLost | ws4d-jcoap/src/org/ws4d/coap/connection/BasicCoapSocketHandler.java:289-299 | a CON sent c times that is never confirmed is sent MAX_RETRANSMIT - c more times; the next expiry removes it and notifies its channel of the loss exactly once; later expiries do nothing |
| HandlerProperties.RetransmissionsAreAttempts | ws4d-jcoap/src/org/ws4d/coap/connection/BasicCoapSocketHandler.java:296-311 | every datagram those expiries send is the pending CON itself (same id, type and channel) addressed to its peer; the i-th carries counter c + 1 + i; timeouts are positive, at least the pending one, and never shrink from one resend to the next |
| HandlerProperties.StaleRetransmissions | ws4d-jcoap/src/org/ws4d/coap/connection/BasicCoapSocketHandler.java:270-274 | once its key is no longer pending, any number of expiries for it changes nothing |
| HandlerProperties.SendConSchedulesOnce | ws4d-jcoap/src/org/ws4d/coap/connection/BasicCoapSocketHandler.java:289-300 | sending a CON below its maximum is Reliability.Schedule (stored advanced, sent, timer queued); as multisets the queue gains exactly one timer, for its key, at now + its new timeout |
| HandlerProperties.StaleTimersSendNothing | ws4d-jcoap/src/org/ws4d/coap/connection/BasicCoapSocketHandler.java:254-277 | a timer pass in which every due timer is stale sends nothing, reports no loss and leaves the unconfirmed store alone |
| HandlerProperties.ConfirmationCancelsResend | ws4d-jcoap/src/org/ws4d/coap/connection/BasicCoapSocketHandler.java:245-249 | a first-seen non-CON from a known peer retires the pending CON with its key, so that key's timer, when it expires, sends nothing |
| HandlerProperties.DuplicateReplayScenario | ws4d-jcoap/src/org/ws4d/coap/connection/BasicCoapSocketHandler.java:199-208 | a CON from a new peer is delivered to the created channel; its ACK is cached and sent; the same CON again is not delivered and the identical ACK goes to the same peer |
| HandlerProperties.RefusedMessageNeverDelivered | ws4d-jcoap/src/org/ws4d/coap/connection/BasicCoapSocketHandler.java:208-223 | a CON/NON whose channel is refused or fails to be created is recorded as seen, dropped, and never delivered on retransmission |
| HandlerProperties.ChannelPersists | ws4d-jcoap/src/org/ws4d/coap/connection/BasicCoapSocketHandler.java:437-450 | a peer's channel stays registered through any run of events that does not unregister it |
| HandlerProperties.ConnectAgainFails | ws4d-jcoap/src/org/ws4d/coap/connection/BasicCoapSocketHandler.java:506-509 | after a successful connect to a peer, a connect to that peer after any run of events that does not unregister its channel returns null |
| HandlerProperties.ReconnectAfterRemove | ws4d-jcoap/src/org/ws4d/coap/connection/BasicCoapSocketHandler.java:447-450 | after removeChannel of the channel a connect returned, a connect with a client to that peer succeeds with a new channel |

## Left out

- Socket I/O is not modelled; transmissions and deliveries are logs. This
  covers the datagram channel, the selector's wait and wakeup, `receive`
  and `send`, and the swallowed IOExceptions.
- `close()` (both the handler's and the worker's) and `getLocalPort` are
  lifecycle operations on the socket, outside the bookkeeping.
- Concurrency is not modelled: the worker thread, `synchronized`, the
  concurrent send queue, and the race the FIXME at :161 describes. Each
  operation is one atomic step.
- Parsing and serialisation of messages are left out. A parse failure is
  the `None` case of the inbound datagram.
- The expiry of the `TimeoutHashMap` stores and their `update()` calls are
  not modelled: the stores are plain maps that never forget. So
  HandlerProperties.Run's no-second-delivery property holds only within the
  retention window of the Java stores (ACK_RST_RETRANS_TIMEOUT_MS, :86);
  after it, Java forgets a key and would deliver a late copy again. The
  unconfirmed store is a store of the same kind (:90): if a back-off
  interval outlasts that window, Java's entry reads as absent when the
  timer expires. Resends then stop silently and lostConnection is never
  called, which HandlerProperties.RetransmitUntilLost does not capture.
  The window's value belongs to the message class, which is not part of
  this model.
- `hashCode` and `equals` of the keys become structural equality of values.
- `TimeoutObject.compareTo` truncates the difference of two `long` expiries
  to `int`. The model orders timers by exact expiry. This differs only for
  expiries more than about 24.8 days apart.
- The order among timers with equal expiry is unspecified in Java's
  PriorityQueue. The model places a new timer after equal ones.
- Logging is not modelled.
- The retransmission policy belongs to the message class, which is not part
  of this model. The model takes the constants of section 4.8 of RFC 7252
  (MAX_RETRANSMIT 4, ACK_TIMEOUT 2000 ms) and a doubling back-off, without
  the random factor. It does not reproduce RFC 7252's count: the model's
  counter also counts the first transmission (sendMsg increments it before
  every send, :296), so a new CON goes out MAX_RETRANSMIT times in all,
  where RFC 7252 sends it 1 + MAX_RETRANSMIT times. The message class may
  compare differently; its source is not part of this model.
- Reliability.HandleTimeouts reads the clock once per pass, where Java reads
  `System.currentTimeMillis()` anew for every timer.
- `long` and `int` overflow of expiries, ids and ports is not modelled:
  integers are unbounded.
- HandlerProperties.Retransmissions does not model the timer queue. Each
  of its steps resends what is pending under the key without polling the
  timer that fired, and all steps share one clock reading. After two steps
  its queue differs from the one the source's timer pass leaves (the
  source polls at :272 and reads the clock anew at :265 and :298). Only
  its other fields are claimed: stores, channels and the logs.
  HandlerProperties.RetransmissionsIgnoreQueue shows those fields do not
  depend on the queue or the clock reading.
- HandlerProperties.RetransmitUntilLost and
  HandlerProperties.RetransmissionsAreAttempts are stated over
  Retransmissions, so they claim nothing about the queue. Three separate
  facts link them to the timer pass, and there is no single theorem over
  timed runs:
  - every resend queues exactly one timer for that key
    (HandlerProperties.SendConSchedulesOnce);
  - the expiry of a head timer is one Retransmissions step
    (HandlerProperties.FireTimeoutRetransmits);
  - the queue and clock do not affect the other fields
    (HandlerProperties.RetransmissionsIgnoreQueue).
- Messages are values, so aliasing is lost. In Java the object stored in
  `nonConfirmedMsgMap` is the one the caller handed over, and it is mutated
  in place by `setChannel` and `incRetransCounterAndTimeout`.
- SocketHandler.BasicCoapSocketHandler.SendMessage requires the message to
  be bound to a channel. An unbound message would make sendMsg throw a
  NullPointerException in the worker thread (:285). Nothing in `run()`
  (:126-169) catches it, so it would end the worker thread. The model does
  not capture that failure.
- SocketHandler.BasicCoapSocketHandler.SendMessage assumes the worker
  exists. The `workerThread != null` test at :471 always passes once the
  handler is constructed.
- Channel construction is left out: `BasicCoapClientChannel`,
  `createServerChannel` and channel behaviour such as `newIncommingMessage`
  and `lostConnection`. The channel manager's answer is the `Creation`
  parameter, and an allocation is a fresh id from `channelsCreated`.
