/**
 * The message-layer bookkeeping of the socket handler's worker loop, as
 * state transitions on a value: duplicate detection, ACK/RST replay,
 * confirmable-message retransmission with lazy timer invalidation, and the
 * per-peer channel table. The class in module SocketHandler is proved to
 * perform exactly these transitions.
 *
 * Side effects are recorded in logs rather than performed: datagrams handed
 * to the socket (`transmitted`), messages handed to a channel's
 * newIncommingMessage (`delivered`), and lostConnection(true, false)
 * notifications (`lost`).
 */
module Reliability {
  import opened Options
  import opened CoapTypes
  import opened TimeoutQueue

  /** Upper bound on the worker's wait when no timer is pending, in ms. */
  const POLLING_INTERVALL: int := 10000

  /** A datagram handed to the socket: the serialised message and its destination. */
  datatype Datagram = Datagram(msg: Message, addr: Addr, port: int)

  /** A message handed to its channel, with the key it was received under. */
  datatype Delivery = Delivery(key: MessageKey, msg: Message)

  /**
   * What the channel manager's createServerChannel does for a new peer:
   * returns a channel, returns null (rejection), or throws.
   */
  datatype Creation = Created(channel: Channel) | Rejected | Failed

  datatype HandlerState = HandlerState(
    duplicateMap: map<MessageKey, bool>,
    retransMsgMap: map<MessageKey, Message>,
    nonConfirmedMsgMap: map<MessageKey, Message>,
    timeoutQueue: seq<TimeoutObject>,
    channels: map<ChannelKey, Channel>,
    transmitted: seq<Datagram>,
    delivered: seq<Delivery>,
    lost: seq<Channel>)

  const Initial := HandlerState(map[], map[], map[], [], map[], [], [], [])

  /** A message stored under `k` is bound to a channel whose peer and id form `k`. */
  predicate StoredAs(m: Message, k: MessageKey) {
    Bound(m) && KeyOf(m) == k
  }

  /**
   * The unconfirmed store holds CON messages, each under its own key, none of
   * them sent more often than the maximum allows.
   */
  ghost predicate PendingCons(store: map<MessageKey, Message>) {
    forall k :: k in store ==>
      StoredAs(store[k], k) && store[k].kind == CON && store[k].retransCounter <= MAX_RETRANSMIT
  }

  /** The replay cache holds ACK and RST messages, each under its own key. */
  ghost predicate CachedReplies(store: map<MessageKey, Message>) {
    forall k :: k in store ==> StoredAs(store[k], k) && IsReply(store[k].kind)
  }

  /** The channel table indexes each channel under its own peer. */
  ghost predicate IndexedByPeer(channels: map<ChannelKey, Channel>) {
    forall ck :: ck in channels ==> ChannelKeyOf(channels[ck]) == ck
  }

  /** Every delivered message was recorded as seen, and no key was delivered twice. */
  ghost predicate DeliveredOnce(delivered: seq<Delivery>, seen: map<MessageKey, bool>) {
    && (forall i :: 0 <= i < |delivered| ==> delivered[i].key in seen)
    && (forall i, j :: 0 <= i < j < |delivered| ==> delivered[i].key != delivered[j].key)
  }

  /** No delivery so far carries `key`. */
  ghost predicate NotDelivered(delivered: seq<Delivery>, key: MessageKey) {
    forall i :: 0 <= i < |delivered| ==> delivered[i].key != key
  }

  /** What every operation keeps. */
  ghost predicate WellFormed(s: HandlerState) {
    && Sorted(s.timeoutQueue)
    && PendingCons(s.nonConfirmedMsgMap)
    && CachedReplies(s.retransMsgMap)
    && IndexedByPeer(s.channels)
    && DeliveredOnce(s.delivered, s.duplicateMap)
  }

  lemma InitialWellFormed()
    ensures WellFormed(Initial)
  {
  }

  /** Map lookup that answers None for an absent key, as a Java map's get answers null. */
  function Get<K, V>(m: map<K, V>, k: K): Option<V> {
    if k in m then Some(m[k]) else None
  }

  /** The datagram that transmitting `m` produces: `m` addressed to its channel's peer. */
  function DatagramOf(m: Message): Datagram
    requires Bound(m)
  {
    Datagram(m, m.channel.value.remoteAddr, m.channel.value.remotePort)
  }

  /**
   * sendMsg. None is ignored. A CON that has reached its maximum is purged from
   * the unconfirmed store and reported lost on its channel, and nothing is
   * sent; any other CON is advanced, stored unconfirmed, scheduled once at
   * now + timeout and sent. ACK and RST are cached for replay and sent; NON is
   * only sent.
   */
  function Send(s: HandlerState, m: Option<Message>, now: int): (r: HandlerState)
    requires WellFormed(s)
    requires m.Some? ==> Bound(m.value)
    ensures WellFormed(r)
    ensures r.duplicateMap == s.duplicateMap && r.channels == s.channels && r.delivered == s.delivered
    ensures s.transmitted <= r.transmitted && s.lost <= r.lost
    ensures forall t :: t in s.timeoutQueue ==> t in r.timeoutQueue
    ensures m.None? ==> r == s
    ensures m.Some? && m.value.kind == CON && MaxRetransReached(m.value) ==>
      r == s.(nonConfirmedMsgMap := s.nonConfirmedMsgMap - {KeyOf(m.value)},
               lost := s.lost + [m.value.channel.value])
    ensures m.Some? && IsReply(m.value.kind) ==>
      r == s.(retransMsgMap := s.retransMsgMap[KeyOf(m.value) := m.value],
               transmitted := s.transmitted + [DatagramOf(m.value)])
    ensures m.Some? && m.value.kind == NON ==>
      r == s.(transmitted := s.transmitted + [DatagramOf(m.value)])
  {
    match m
    case None => s
    case Some(msg) =>
      if msg.kind == CON then
        if MaxRetransReached(msg) then
          // the connection is broken: the CON is no longer pending and its channel hears of the loss
          s.(nonConfirmedMsgMap := s.nonConfirmedMsgMap - {KeyOf(msg)},
             lost := s.lost + [msg.channel.value])
        else
          Schedule(s, msg, now)
      else if IsReply(msg.kind) then
        s.(retransMsgMap := s.retransMsgMap[KeyOf(msg) := msg],
           transmitted := s.transmitted + [DatagramOf(msg)])
      else
        s.(transmitted := s.transmitted + [DatagramOf(msg)])
  }

  /** One more attempt: advance the CON, keep it pending, queue its timer and transmit it. */
  function Schedule(s: HandlerState, msg: Message, now: int): (r: HandlerState)
    requires WellFormed(s) && Bound(msg) && msg.kind == CON && !MaxRetransReached(msg)
    ensures WellFormed(r)
    ensures r.duplicateMap == s.duplicateMap && r.channels == s.channels && r.delivered == s.delivered
    ensures r.retransMsgMap == s.retransMsgMap && r.lost == s.lost
    ensures KeyOf(msg) in r.nonConfirmedMsgMap
    ensures var sent := r.nonConfirmedMsgMap[KeyOf(msg)];
      && sent.retransCounter == msg.retransCounter + 1
      && sent.timeout > 0 && sent.timeout >= msg.timeout
      && sent.id == msg.id && sent.kind == CON && sent.channel == msg.channel
      && r.nonConfirmedMsgMap == s.nonConfirmedMsgMap[KeyOf(msg) := sent]
      && r.timeoutQueue == Insert(s.timeoutQueue, TimeoutObject(KeyOf(msg), now + sent.timeout))
      && r.transmitted == s.transmitted + [DatagramOf(sent)]
    // the new timer lies in the future, so it does not expire in the pass that set it
    ensures DueCount(r.timeoutQueue, now) == DueCount(s.timeoutQueue, now)
  {
    var sent := IncRetransCounterAndTimeout(msg);
    var key := KeyOf(msg);
    var queue := Insert(s.timeoutQueue, TimeoutObject(key, now + sent.timeout));
    DueCountInsert(s.timeoutQueue, TimeoutObject(key, now + sent.timeout), now);
    s.(nonConfirmedMsgMap := s.nonConfirmedMsgMap[key := sent],
       timeoutQueue := queue,
       transmitted := s.transmitted + [DatagramOf(sent)])
  }

  /** addChannel: index a channel under its own peer. */
  function AddChannel(s: HandlerState, ch: Channel): (r: HandlerState)
    requires WellFormed(s)
    ensures WellFormed(r)
    ensures ChannelKeyOf(ch) in r.channels && r.channels[ChannelKeyOf(ch)] == ch
    ensures forall ck :: ck != ChannelKeyOf(ch) ==>
      (ck in r.channels <==> ck in s.channels) && (ck in s.channels ==> r.channels[ck] == s.channels[ck])
    ensures r.(channels := s.channels) == s
  {
    s.(channels := s.channels[ChannelKeyOf(ch) := ch])
  }

  /** removeChannel: drop the entry of the channel's peer, whatever channel it holds, and no other. */
  function RemoveChannel(s: HandlerState, ch: Channel): (r: HandlerState)
    requires WellFormed(s)
    ensures WellFormed(r)
    ensures ChannelKeyOf(ch) !in r.channels
    ensures forall ck :: ck != ChannelKeyOf(ch) ==>
      (ck in r.channels <==> ck in s.channels) && (ck in s.channels ==> r.channels[ck] == s.channels[ck])
    ensures r.(channels := s.channels) == s
  {
    s.(channels := s.channels - {ChannelKeyOf(ch)})
  }

  /**
   * connect. No client, or a channel already registered for the peer: no
   * channel and no change. Otherwise a new client channel for exactly that
   * peer (its identity `newId` stands for object allocation) is registered
   * and returned.
   */
  function Connect(s: HandlerState, client: Option<Client>, addr: Addr, port: int, newId: nat)
    : (r: (HandlerState, Option<Channel>))
    requires WellFormed(s)
    ensures WellFormed(r.0)
    ensures r.1.Some? <==> client.Some? && ChannelKey(addr, port) !in s.channels
    ensures r.1.None? ==> r.0 == s
    ensures r.1.Some? ==>
      && r.1.value == Channel(newId, addr, port)
      && r.0.channels == s.channels[ChannelKey(addr, port) := r.1.value]
      && r.0.(channels := s.channels) == s
  {
    if client.None? then (s, None)
    else if ChannelKey(addr, port) in s.channels then (s, None)
    else
      var ch := Channel(newId, addr, port);
      (AddChannel(s, ch), Some(ch))
  }

  /**
   * Delivery of a fresh inbound message to its resolved channel: the message
   * is bound to the channel, a non-CON retires the pending CON under the same
   * key, and the message is handed to the channel once.
   */
  function Deliver(s: HandlerState, key: MessageKey, msg: Message, ch: Channel): (r: HandlerState)
    requires WellFormed(s) && key in s.duplicateMap && NotDelivered(s.delivered, key)
    ensures WellFormed(r)
    ensures Delivered(s, r, key, msg, ch)
  {
    s.(nonConfirmedMsgMap := if msg.kind != CON then s.nonConfirmedMsgMap - {key} else s.nonConfirmedMsgMap,
       delivered := s.delivered + [Delivery(key, msg.(channel := Some(ch)))])
  }

  /**
   * handleIncommingMessage for a datagram from (addr, port) whose parse
   * result is `parsed` (None: the parser threw). `creation` is what the
   * channel manager would answer if it is asked.
   */
  function Receive(s: HandlerState, parsed: Option<Message>, addr: Addr, port: int, creation: Creation, now: int)
    : (r: HandlerState)
    requires WellFormed(s)
    ensures WellFormed(r)
    ensures s.duplicateMap.Keys <= r.duplicateMap.Keys && s.transmitted <= r.transmitted
    ensures r.lost == s.lost && r.timeoutQueue == s.timeoutQueue && r.retransMsgMap == s.retransMsgMap
    // an unparsable datagram has no effect
    ensures parsed.None? ==> r == s
    // a duplicate is never delivered and changes no channel; its cached reply, if any, is sent again
    ensures parsed.Some? && MessageKey(parsed.value.id, addr, port) in s.duplicateMap ==>
      var key := MessageKey(parsed.value.id, addr, port);
      && r.delivered == s.delivered && r.channels == s.channels
      && r.duplicateMap == s.duplicateMap && r.nonConfirmedMsgMap == s.nonConfirmedMsgMap
      && r.transmitted == s.transmitted +
           (if key in s.retransMsgMap then [Datagram(s.retransMsgMap[key], addr, port)] else [])
    // a first-seen key is recorded and nothing is sent
    ensures parsed.Some? && MessageKey(parsed.value.id, addr, port) !in s.duplicateMap ==>
      var key := MessageKey(parsed.value.id, addr, port);
      var msg := parsed.value;
      && r.duplicateMap == s.duplicateMap[key := true]
      && r.transmitted == s.transmitted
      && (if ChannelKey(addr, port) in s.channels then
            r.channels == s.channels && Delivered(s, r, key, msg, s.channels[ChannelKey(addr, port)])
          else if (msg.kind == CON || msg.kind == NON) && creation.Created? then
            r.channels == s.channels[ChannelKeyOf(creation.channel) := creation.channel]
            && Delivered(s, r, key, msg, creation.channel)
          else
            // ACK/RST from an unknown peer, or a channel the manager refused or failed to create
            r.channels == s.channels && r.delivered == s.delivered
            && r.nonConfirmedMsgMap == s.nonConfirmedMsgMap)
    // whatever is delivered during the call carries a key that was not seen before it
    ensures s.delivered <= r.delivered
    ensures forall i :: |s.delivered| <= i < |r.delivered| ==> r.delivered[i].key !in s.duplicateMap
  {
    match parsed
    case None => s
    case Some(msg) =>
      var key := MessageKey(msg.id, addr, port);
      if key in s.duplicateMap then
        Send(s, Get(s.retransMsgMap, key), now)
      else
        var seen := s.(duplicateMap := s.duplicateMap[key := true]);
        var ck := ChannelKey(addr, port);
        if ck in seen.channels then
          Deliver(seen, key, msg, seen.channels[ck])
        else if msg.kind == CON || msg.kind == NON then
          match creation
          case Created(ch) => Deliver(AddChannel(seen, ch), key, msg, ch)
          case _ => seen
        else
          seen
  }

  /**
   * The message was bound to `ch` and delivered exactly once under `key`; a
   * non-CON retired the pending CON with that key and a CON left the
   * unconfirmed store as it was.
   */
  ghost predicate Delivered(s: HandlerState, r: HandlerState, key: MessageKey, msg: Message, ch: Channel) {
    && r.delivered == s.delivered + [Delivery(key, msg.(channel := Some(ch)))]
    && r.nonConfirmedMsgMap == (if msg.kind != CON then s.nonConfirmedMsgMap - {key} else s.nonConfirmedMsgMap)
  }

  /** sendBufferedMessages: every buffered message goes through the send path, in FIFO order. */
  function SendAll(s: HandlerState, msgs: seq<Message>, now: int): (r: HandlerState)
    requires WellFormed(s)
    requires forall i :: 0 <= i < |msgs| ==> Bound(msgs[i])
    ensures WellFormed(r)
    ensures r.duplicateMap == s.duplicateMap && r.channels == s.channels && r.delivered == s.delivered
    ensures s.transmitted <= r.transmitted && s.lost <= r.lost
    decreases |msgs|
  {
    if msgs == [] then s
    else SendAll(Send(s, Some(msgs[0]), now), msgs[1..], now)
  }

  /**
   * One expired timer: drop the head of the queue and send again whatever
   * the unconfirmed store holds under its key. A stale entry, whose key is no
   * longer pending, is discarded without sending anything.
   */
  function FireTimeout(s: HandlerState, now: int): (r: HandlerState)
    requires WellFormed(s) && s.timeoutQueue != [] && s.timeoutQueue[0].expires <= now
    ensures WellFormed(r)
    ensures r.duplicateMap == s.duplicateMap && r.channels == s.channels && r.delivered == s.delivered
    ensures r.retransMsgMap == s.retransMsgMap
    ensures s.transmitted <= r.transmitted && s.lost <= r.lost
    ensures s.timeoutQueue[0].key !in s.nonConfirmedMsgMap ==> r == s.(timeoutQueue := s.timeoutQueue[1..])
    ensures s.timeoutQueue[0].key in s.nonConfirmedMsgMap ==>
      r == Send(s.(timeoutQueue := s.timeoutQueue[1..]), Some(s.nonConfirmedMsgMap[s.timeoutQueue[0].key]), now)
    ensures forall t :: t in s.timeoutQueue && now < t.expires ==> t in r.timeoutQueue
    ensures DueCount(r.timeoutQueue, now) < DueCount(s.timeoutQueue, now)
  {
    var key := s.timeoutQueue[0].key;
    var popped := s.(timeoutQueue := s.timeoutQueue[1..]);
    assert s.timeoutQueue == [s.timeoutQueue[0]] + popped.timeoutQueue;
    var r := Send(popped, Get(popped.nonConfirmedMsgMap, key), now);
    r
  }

  /**
   * handleTimeouts: fire every expired timer, then answer how long the
   * worker may wait: POLLING_INTERVALL when no timer is left, otherwise the
   * time until the earliest one. Afterwards no timer has expired, every timer
   * that had not expired is still queued, and the wait is positive.
   */
  function HandleTimeouts(s: HandlerState, now: int): (r: (HandlerState, int))
    requires WellFormed(s)
    ensures WellFormed(r.0)
    ensures r.0.duplicateMap == s.duplicateMap && r.0.channels == s.channels && r.0.delivered == s.delivered
    ensures r.0.retransMsgMap == s.retransMsgMap
    ensures s.transmitted <= r.0.transmitted && s.lost <= r.0.lost
    ensures forall t :: t in r.0.timeoutQueue ==> now < t.expires
    ensures forall t :: t in s.timeoutQueue && now < t.expires ==> t in r.0.timeoutQueue
    ensures r.0.timeoutQueue == [] ==> r.1 == POLLING_INTERVALL
    ensures r.0.timeoutQueue != [] ==>
      r.1 == r.0.timeoutQueue[0].expires - now &&
      forall t :: t in r.0.timeoutQueue ==> r.1 <= t.expires - now
    ensures r.1 > 0
    decreases DueCount(s.timeoutQueue, now)
  {
    if s.timeoutQueue == [] then
      (s, POLLING_INTERVALL)
    else if s.timeoutQueue[0].expires - now > 0 then
      HeadNotDue(s.timeoutQueue, now);
      (s, s.timeoutQueue[0].expires - now)
    else
      HandleTimeouts(FireTimeout(s, now), now)
  }

  /** A datagram taken from the socket: its parse result (None when parsing threw) and its source. */
  datatype Inbound = Inbound(parsed: Option<Message>, addr: Addr, port: int)

  /**
   * One iteration of the worker loop: drain the outbound buffer, handle the
   * datagram received (if any), fire the expired timers and compute the wait
   * for the selector, which is always positive, so that the worker never
   * blocks without a bound.
   */
  function Cycle(s: HandlerState, buffered: seq<Message>, inbound: Option<Inbound>, creation: Creation, now: int)
    : (r: (HandlerState, int))
    requires WellFormed(s)
    requires forall i :: 0 <= i < |buffered| ==> Bound(buffered[i])
    ensures WellFormed(r.0)
    ensures r.0.timeoutQueue == [] ==> r.1 == POLLING_INTERVALL
    ensures r.0.timeoutQueue != [] ==> r.1 == r.0.timeoutQueue[0].expires - now
    ensures r.1 > 0
    ensures forall t :: t in r.0.timeoutQueue ==> now < t.expires
    ensures s.delivered <= r.0.delivered && |r.0.delivered| <= |s.delivered| + 1
    ensures s.transmitted <= r.0.transmitted && s.lost <= r.0.lost
  {
    var drained := SendAll(s, buffered, now);
    var received :=
      match inbound
      case None => drained
      case Some(d) => Receive(drained, d.parsed, d.addr, d.port, creation, now);
    HandleTimeouts(received, now)
  }
}
