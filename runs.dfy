/**
 * Properties of the handler that span several operations: runs of arbitrary
 * events, retransmission until the connection is declared lost, lazy timer
 * invalidation, and the end-to-end scenarios of duplicate replay and
 * channel uniqueness.
 */
module HandlerProperties {
  import opened Options
  import opened CoapTypes
  import opened TimeoutQueue
  import opened Reliability

  /** Anything the worker can be asked to do, with the clock reading at that moment. */
  datatype Event =
    | Outbound(msg: Message, now: int)
    | Incoming(inbound: Inbound, creation: Creation, now: int)
    | Timers(now: int)
    | ConnectRequest(client: Option<Client>, addr: Addr, port: int, newId: nat)
    | Unregister(channel: Channel)

  /** Outbound messages must be bound to a channel, as sendMsg dereferences it. */
  predicate Admissible(e: Event) {
    e.Outbound? ==> Bound(e.msg)
  }

  /** The event unregisters the channel of peer `ck`. */
  predicate Unregisters(e: Event, ck: ChannelKey) {
    e.Unregister? && ChannelKeyOf(e.channel) == ck
  }

  /**
   * One event. Only an inbound datagram can record a key or deliver a
   * message, and what it delivers carries a key not seen before it.
   */
  function Step(s: HandlerState, e: Event): (r: HandlerState)
    requires WellFormed(s) && Admissible(e)
    ensures WellFormed(r)
    ensures s.duplicateMap.Keys <= r.duplicateMap.Keys && s.delivered <= r.delivered
    ensures forall i :: |s.delivered| <= i < |r.delivered| ==> r.delivered[i].key !in s.duplicateMap
    // only unregistering a channel removes a peer from the channel table
    ensures forall ck :: ck in s.channels && !Unregisters(e, ck) ==> ck in r.channels
  {
    match e
    case Outbound(msg, now) => Send(s, Some(msg), now)
    case Incoming(d, creation, now) => Receive(s, d.parsed, d.addr, d.port, creation, now)
    case Timers(now) => HandleTimeouts(s, now).0
    case ConnectRequest(client, addr, port, newId) => Connect(s, client, addr, port, newId).0
    case Unregister(ch) => RemoveChannel(s, ch)
  }

  /**
   * Any run of events. Across the whole run the invariant holds (so no key
   * is delivered twice), and no key that had been seen before the run is
   * delivered during it: a retransmitted duplicate never reaches a channel.
   */
  function Run(s: HandlerState, events: seq<Event>): (r: HandlerState)
    requires WellFormed(s)
    requires forall i :: 0 <= i < |events| ==> Admissible(events[i])
    ensures WellFormed(r)
    ensures s.duplicateMap.Keys <= r.duplicateMap.Keys && s.delivered <= r.delivered
    ensures forall i :: |s.delivered| <= i < |r.delivered| ==> r.delivered[i].key !in s.duplicateMap
    decreases |events|
  {
    if events == [] then s
    else
      var next := Step(s, events[0]);
      var r := Run(next, events[1..]);
      assert forall i :: |s.delivered| <= i < |next.delivered| ==> r.delivered[i] == next.delivered[i];
      r
  }

  /**
   * `n` expiries of the timer for `key`, each resending what the unconfirmed
   * store holds under it. Other timers are left aside: FireTimeoutRetransmits
   * shows that the expiry of the head timer is one such step on the popped
   * state.
   */
  function Retransmissions(s: HandlerState, key: MessageKey, now: int, n: nat): (r: HandlerState)
    requires WellFormed(s)
    ensures WellFormed(r)
    ensures s.transmitted <= r.transmitted && s.lost <= r.lost
    decreases n
  {
    if n == 0 then s
    else Retransmissions(Send(s, Get(s.nonConfirmedMsgMap, key), now), key, now, n - 1)
  }

  /** The expiry of the head timer resends, on the popped state, what is pending under its key. */
  lemma FireTimeoutRetransmits(s: HandlerState, now: int)
    requires WellFormed(s) && s.timeoutQueue != [] && s.timeoutQueue[0].expires <= now
    ensures FireTimeout(s, now) ==
      Retransmissions(s.(timeoutQueue := s.timeoutQueue[1..]), s.timeoutQueue[0].key, now, 1)
  {
  }

  /**
   * Apart from the timer queue, expiries for a key do not depend on the queue
   * or on the clock reading: every field but the queue comes out the same.
   * With FireTimeoutRetransmits, a chain of head-timer expiries for the key,
   * at any clock readings, produces the stores and logs that
   * RetransmitUntilLost and RetransmissionsAreAttempts describe.
   */
  lemma {:induction false} RetransmissionsIgnoreQueue(s: HandlerState, q: seq<TimeoutObject>, key: MessageKey,
                                                      now: int, now2: int, n: nat)
    requires WellFormed(s) && Sorted(q)
    ensures Retransmissions(s, key, now, n).(timeoutQueue := []) ==
            Retransmissions(s.(timeoutQueue := q), key, now2, n).(timeoutQueue := [])
    decreases n
  {
    if n > 0 {
      var a1 := Send(s, Get(s.nonConfirmedMsgMap, key), now);
      var b1 := Send(s.(timeoutQueue := q), Get(s.nonConfirmedMsgMap, key), now2);
      assert b1 == a1.(timeoutQueue := b1.timeoutQueue);
      RetransmissionsIgnoreQueue(a1, b1.timeoutQueue, key, now, now2, n - 1);
    }
  }

  /**
   * The datagrams of successive attempts to deliver `pending`: the i-th is
   * the CON itself (same id and channel) addressed to its peer, carrying
   * counter c + 1 + i, with a positive timeout no smaller than the one
   * before it.
   */
  ghost predicate Attempts(sent: seq<Datagram>, pending: Message) {
    && (forall i :: 0 <= i < |sent| ==>
          && sent[i].msg.id == pending.id && sent[i].msg.kind == CON
          && sent[i].msg.channel == pending.channel
          && Bound(sent[i].msg) && sent[i] == DatagramOf(sent[i].msg)
          && sent[i].msg.retransCounter == pending.retransCounter + 1 + i
          && 0 < sent[i].msg.timeout && pending.timeout <= sent[i].msg.timeout)
    && (forall i, j :: 0 <= i < j < |sent| ==> sent[i].msg.timeout <= sent[j].msg.timeout)
  }

  lemma AttemptsCons(first: Datagram, rest: seq<Datagram>, pending: Message)
    requires Bound(first.msg) && first == DatagramOf(first.msg)
    requires first.msg.id == pending.id && first.msg.kind == CON && first.msg.channel == pending.channel
    requires first.msg.retransCounter == pending.retransCounter + 1
    requires 0 < first.msg.timeout && pending.timeout <= first.msg.timeout
    requires Attempts(rest, first.msg)
    ensures Attempts([first] + rest, pending)
  {
    var sent := [first] + rest;
    forall i | 1 <= i < |sent| ensures sent[i] == rest[i - 1] {}
  }

  /** An expiry for a pending CON at its maximum gives up on it. */
  lemma GiveUpOnce(s: HandlerState, key: MessageKey, now: int)
    requires WellFormed(s) && key in s.nonConfirmedMsgMap && MaxRetransReached(s.nonConfirmedMsgMap[key])
    ensures Retransmissions(s, key, now, 1) ==
      s.(nonConfirmedMsgMap := s.nonConfirmedMsgMap - {key},
         lost := s.lost + [s.nonConfirmedMsgMap[key].channel.value])
  {
    assert Retransmissions(s, key, now, 1) == Send(s, Some(s.nonConfirmedMsgMap[key]), now);
  }

  /** An expiry for a pending CON below its maximum schedules it once more. */
  lemma RetransmitOnce(s: HandlerState, key: MessageKey, now: int, n: nat)
    requires WellFormed(s) && key in s.nonConfirmedMsgMap && !MaxRetransReached(s.nonConfirmedMsgMap[key])
    ensures Retransmissions(s, key, now, n + 1) ==
      Retransmissions(Schedule(s, s.nonConfirmedMsgMap[key], now), key, now, n)
  {
    assert Retransmissions(s, key, now, n + 1) ==
      Retransmissions(Send(s, Some(s.nonConfirmedMsgMap[key]), now), key, now, n);
  }

  /**
   * A pending CON that is never confirmed is sent MAX_RETRANSMIT - c more
   * times (c being its counter now), each time as itself with the next
   * counter and a timeout that never shrinks; the expiry after that drops it
   * from the unconfirmed store and notifies its channel of the lost
   * connection exactly once, and further expiries for its key do nothing.
   */
  lemma {:induction false} RetransmitUntilLost(s: HandlerState, key: MessageKey, now: int)
    requires WellFormed(s) && key in s.nonConfirmedMsgMap
    ensures var pending := s.nonConfirmedMsgMap[key];
      var r := Retransmissions(s, key, now, MAX_RETRANSMIT - pending.retransCounter + 1);
      && key !in r.nonConfirmedMsgMap
      && r.lost == s.lost + [pending.channel.value]
      && |r.transmitted| == |s.transmitted| + (MAX_RETRANSMIT - pending.retransCounter)
      && forall n: nat :: Retransmissions(r, key, now, n) == r
    decreases MAX_RETRANSMIT - s.nonConfirmedMsgMap[key].retransCounter
  {
    var pending := s.nonConfirmedMsgMap[key];
    var r := Retransmissions(s, key, now, MAX_RETRANSMIT - pending.retransCounter + 1);
    if MaxRetransReached(pending) {
      GiveUpOnce(s, key, now);
    } else {
      var next := Schedule(s, pending, now);
      RetransmitOnce(s, key, now, MAX_RETRANSMIT - next.nonConfirmedMsgMap[key].retransCounter + 1);
      RetransmitUntilLost(next, key, now);
    }
    forall n: nat ensures Retransmissions(r, key, now, n) == r {
      StaleRetransmissions(r, key, now, n);
    }
  }

  /**
   * Every datagram that expiries for a pending CON send is that CON itself,
   * addressed to its peer, with the next counter and a timeout that never
   * shrinks.
   */
  lemma {:induction false} RetransmissionsAreAttempts(s: HandlerState, key: MessageKey, now: int, k: nat)
    requires WellFormed(s) && key in s.nonConfirmedMsgMap
    ensures Attempts(Retransmissions(s, key, now, k).transmitted[|s.transmitted|..], s.nonConfirmedMsgMap[key])
    decreases k
  {
    if k == 0 {
      assert Retransmissions(s, key, now, k).transmitted[|s.transmitted|..] == [];
    } else if MaxRetransReached(s.nonConfirmedMsgMap[key]) {
      GiveUpThenSilent(s, key, now, k);
      assert Retransmissions(s, key, now, k).transmitted[|s.transmitted|..] == [];
    } else {
      RetransmissionsAreAttempts(Schedule(s, s.nonConfirmedMsgMap[key], now), key, now, k - 1);
      AttemptsStep(s, key, now, k);
    }
  }

  /** After the give-up, expiries for the key send nothing. */
  lemma GiveUpThenSilent(s: HandlerState, key: MessageKey, now: int, k: nat)
    requires WellFormed(s) && key in s.nonConfirmedMsgMap && MaxRetransReached(s.nonConfirmedMsgMap[key])
    requires k >= 1
    ensures Retransmissions(s, key, now, k).transmitted == s.transmitted
  {
    RetransmitAfterGiveUp(s, key, now, k - 1);
    GiveUpOnce(s, key, now);
    StaleRetransmissions(Retransmissions(s, key, now, 1), key, now, k - 1);
  }

  /** The first attempt followed by the attempts of the rescheduled CON are attempts of the pending one. */
  lemma AttemptsStep(s: HandlerState, key: MessageKey, now: int, k: nat)
    requires WellFormed(s) && key in s.nonConfirmedMsgMap && !MaxRetransReached(s.nonConfirmedMsgMap[key])
    requires k >= 1
    requires var next := Schedule(s, s.nonConfirmedMsgMap[key], now);
      Attempts(Retransmissions(next, key, now, k - 1).transmitted[|next.transmitted|..], next.nonConfirmedMsgMap[key])
    ensures Attempts(Retransmissions(s, key, now, k).transmitted[|s.transmitted|..], s.nonConfirmedMsgMap[key])
  {
    var next := Schedule(s, s.nonConfirmedMsgMap[key], now);
    var sent := next.nonConfirmedMsgMap[key];
    var r := Retransmissions(s, key, now, k);
    RetransmitOnce(s, key, now, k - 1);
    var n := |s.transmitted|;
    assert r.transmitted[n..] == [DatagramOf(sent)] + r.transmitted[n + 1..] by {
      assert r.transmitted[n] == next.transmitted[n];
    }
    AttemptsCons(DatagramOf(sent), r.transmitted[n + 1..], s.nonConfirmedMsgMap[key]);
  }

  lemma RetransmitAfterGiveUp(s: HandlerState, key: MessageKey, now: int, n: nat)
    requires WellFormed(s) && key in s.nonConfirmedMsgMap && MaxRetransReached(s.nonConfirmedMsgMap[key])
    ensures Retransmissions(s, key, now, n + 1) == Retransmissions(Retransmissions(s, key, now, 1), key, now, n)
  {
    assert Retransmissions(s, key, now, n + 1) ==
      Retransmissions(Send(s, Some(s.nonConfirmedMsgMap[key]), now), key, now, n);
    assert Retransmissions(s, key, now, 1) == Send(s, Some(s.nonConfirmedMsgMap[key]), now);
  }

  /** Once its key is no longer pending, the timer of a message sends nothing. */
  lemma {:induction false} StaleRetransmissions(s: HandlerState, key: MessageKey, now: int, n: nat)
    requires WellFormed(s) && key !in s.nonConfirmedMsgMap
    ensures Retransmissions(s, key, now, n) == s
  {
    if n > 0 {
      StaleRetransmissions(s, key, now, n - 1);
    }
  }

  /**
   * Sending a CON below its maximum is Schedule: the advanced CON is stored
   * and sent, and exactly one new timer, for its own key, expiring at now
   * plus its new timeout, joins the queue, which loses none.
   */
  lemma SendConSchedulesOnce(s: HandlerState, msg: Message, now: int)
    requires WellFormed(s) && Bound(msg) && msg.kind == CON && !MaxRetransReached(msg)
    ensures Send(s, Some(msg), now) == Schedule(s, msg, now)
    ensures var r := Send(s, Some(msg), now);
      && KeyOf(msg) in r.nonConfirmedMsgMap
      && multiset(r.timeoutQueue) ==
           multiset(s.timeoutQueue) + multiset{TimeoutObject(KeyOf(msg), now + r.nonConfirmedMsgMap[KeyOf(msg)].timeout)}
  {
    var r := Schedule(s, msg, now);
    assert Send(s, Some(msg), now) == r;
    InsertAddsOne(s.timeoutQueue, TimeoutObject(KeyOf(msg), now + r.nonConfirmedMsgMap[KeyOf(msg)].timeout));
  }

  /**
   * A timer pass in which every expired timer is stale sends nothing and
   * notifies no channel: confirmation alone cancels a pending resend.
   */
  lemma {:induction false} StaleTimersSendNothing(s: HandlerState, now: int)
    requires WellFormed(s)
    requires forall t :: t in s.timeoutQueue && t.expires <= now ==> t.key !in s.nonConfirmedMsgMap
    ensures HandleTimeouts(s, now).0.transmitted == s.transmitted
    ensures HandleTimeouts(s, now).0.lost == s.lost
    ensures HandleTimeouts(s, now).0.nonConfirmedMsgMap == s.nonConfirmedMsgMap
    decreases DueCount(s.timeoutQueue, now)
  {
    if s.timeoutQueue != [] && s.timeoutQueue[0].expires - now <= 0 {
      var next := FireTimeout(s, now);
      assert next == s.(timeoutQueue := s.timeoutQueue[1..]);
      assert s.timeoutQueue == [s.timeoutQueue[0]] + next.timeoutQueue;
      StaleTimersSendNothing(next, now);
    }
  }

  /**
   * A first-seen ACK, NON or RST from a known peer retires the pending CON
   * with the same key, so when that CON's timer expires it is discarded
   * without a transmission.
   */
  lemma ConfirmationCancelsResend(s: HandlerState, reply: Message, addr: Addr, port: int,
                                  creation: Creation, now: int, later: int)
    requires WellFormed(s) && reply.kind != CON
    requires MessageKey(reply.id, addr, port) !in s.duplicateMap && ChannelKey(addr, port) in s.channels
    ensures var r := Receive(s, Some(reply), addr, port, creation, now);
      && MessageKey(reply.id, addr, port) !in r.nonConfirmedMsgMap
      && (r.timeoutQueue != [] && r.timeoutQueue[0].key == MessageKey(reply.id, addr, port) &&
          r.timeoutQueue[0].expires <= later ==>
            FireTimeout(r, later).transmitted == r.transmitted && FireTimeout(r, later).lost == r.lost)
  {
  }

  /**
   * A CON from a new peer is delivered to the channel the manager creates;
   * the ACK sent for it is cached; when the CON arrives again it is not
   * delivered again and the cached ACK is sent once more, unchanged.
   */
  lemma DuplicateReplayScenario(s: HandlerState, con: Message, ack: Message, addr: Addr, port: int,
                                ch: Channel, creation: Creation, t1: int, t2: int, t3: int)
    requires WellFormed(s) && con.kind == CON
    requires MessageKey(con.id, addr, port) !in s.duplicateMap && ChannelKey(addr, port) !in s.channels
    requires ch.remoteAddr == addr && ch.remotePort == port
    requires ack.kind == ACK && ack.id == con.id && ack.channel == Some(ch)
    ensures var s1 := Receive(s, Some(con), addr, port, Created(ch), t1);
      var s2 := Send(s1, Some(ack), t2);
      var s3 := Receive(s2, Some(con), addr, port, creation, t3);
      && s1.channels == s.channels[ChannelKey(addr, port) := ch]
      && s1.delivered == s.delivered + [Delivery(MessageKey(con.id, addr, port), con.(channel := Some(ch)))]
      && s2.transmitted == s1.transmitted + [Datagram(ack, addr, port)]
      && s3.delivered == s2.delivered && s3.channels == s2.channels
      && s3.transmitted == s2.transmitted + [Datagram(ack, addr, port)]
  {
  }

  /**
   * A CON or NON from an unknown peer is recorded as seen before the channel
   * manager is asked. When the manager refuses or fails, the message is
   * dropped, and a retransmission of it is treated as a duplicate: it is
   * never delivered, not even once a channel could be created for it.
   */
  lemma RefusedMessageNeverDelivered(s: HandlerState, msg: Message, addr: Addr, port: int,
                                     first: Creation, second: Creation, t1: int, t2: int)
    requires WellFormed(s) && (msg.kind == CON || msg.kind == NON) && !first.Created?
    requires MessageKey(msg.id, addr, port) !in s.duplicateMap && ChannelKey(addr, port) !in s.channels
    requires MessageKey(msg.id, addr, port) !in s.retransMsgMap
    ensures var s1 := Receive(s, Some(msg), addr, port, first, t1);
      var s2 := Receive(s1, Some(msg), addr, port, second, t2);
      && MessageKey(msg.id, addr, port) in s1.duplicateMap
      && s2.delivered == s.delivered && s2.channels == s.channels && s2.transmitted == s.transmitted
  {
  }

  /** A peer's channel stays registered through any run of events that does not unregister it. */
  lemma {:induction false} ChannelPersists(s: HandlerState, events: seq<Event>, ck: ChannelKey)
    requires WellFormed(s) && forall i :: 0 <= i < |events| ==> Admissible(events[i])
    requires ck in s.channels && forall i :: 0 <= i < |events| ==> !Unregisters(events[i], ck)
    ensures ck in Run(s, events).channels
    decreases |events|
  {
    if events != [] {
      ChannelPersists(Step(s, events[0]), events[1..], ck);
    }
  }

  /**
   * After a successful connect to a peer, a later connect to that peer
   * returns null, whatever happens in between, unless the peer's channel is
   * unregistered in the meantime.
   */
  lemma ConnectAgainFails(s: HandlerState, c1: Option<Client>, addr: Addr, port: int, id1: nat,
                          events: seq<Event>, c2: Option<Client>, id2: nat)
    requires WellFormed(s) && forall i :: 0 <= i < |events| ==> Admissible(events[i])
    requires forall i :: 0 <= i < |events| ==> !Unregisters(events[i], ChannelKey(addr, port))
    ensures var first := Connect(s, c1, addr, port, id1);
      first.1.Some? ==> Connect(Run(first.0, events), c2, addr, port, id2).1 == None
  {
    var first := Connect(s, c1, addr, port, id1);
    if first.1.Some? {
      ChannelPersists(first.0, events, ChannelKey(addr, port));
    }
  }

  /** Once the channel a connect returned is removed, a connect with a client to that peer succeeds again. */
  lemma ReconnectAfterRemove(s: HandlerState, c1: Option<Client>, client: Client, addr: Addr, port: int,
                             id1: nat, id2: nat)
    requires WellFormed(s)
    ensures var first := Connect(s, c1, addr, port, id1);
      first.1.Some? ==>
        Connect(RemoveChannel(first.0, first.1.value), Some(client), addr, port, id2).1 == Some(Channel(id2, addr, port))
  {
  }
}
