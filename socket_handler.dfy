/**
 * The socket handler as an object: the worker's stores, timer queue and
 * outbound buffer, and the outer channel table, all updated in place. Each
 * method is proved to perform the transition of module Reliability on the
 * view Core(); socket output, channel delivery and lost-connection
 * notifications are recorded in ghost logs, and the clock is the parameter
 * `now`.
 */
module SocketHandler {
  import opened Options
  import opened CoapTypes
  import opened TimeoutQueue
  import R = Reliability

  class BasicCoapSocketHandler {
    var duplicateMap: map<MessageKey, bool>
    var retransMsgMap: map<MessageKey, Message>
    var nonConfirmedMsgMap: map<MessageKey, Message>
    var timeoutQueue: seq<TimeoutObject>
    var sendBuffer: seq<Message>
    var channels: map<ChannelKey, Channel>
    // stands for allocating a new client channel object
    var channelsCreated: nat
    ghost var transmitted: seq<R.Datagram>
    ghost var delivered: seq<R.Delivery>
    ghost var lost: seq<Channel>

    /** Everything but the outbound buffer, as a value. */
    ghost function Core(): R.HandlerState
      reads this
    {
      R.HandlerState(duplicateMap, retransMsgMap, nonConfirmedMsgMap, timeoutQueue, channels,
                     transmitted, delivered, lost)
    }

    ghost predicate Valid()
      reads this
    {
      && R.WellFormed(Core())
      && forall i :: 0 <= i < |sendBuffer| ==> Bound(sendBuffer[i])
    }

    /** A handler with empty stores, no timers, no channels and nothing buffered. */
    constructor ()
      ensures Valid()
      ensures Core() == R.Initial && sendBuffer == [] && channelsCreated == 0
    {
      duplicateMap, retransMsgMap, nonConfirmedMsgMap := map[], map[], map[];
      timeoutQueue, sendBuffer, channels := [], [], map[];
      channelsCreated := 0;
      transmitted, delivered, lost := [], [], [];
      R.InitialWellFormed();
    }

    /** addMessageToSendBuffer: queue the message at the tail for the worker. */
    method AddMessageToSendBuffer(msg: Message)
      requires Valid() && Bound(msg)
      modifies this
      ensures Valid()
      ensures sendBuffer == old(sendBuffer) + [msg]
      ensures Core() == old(Core()) && channelsCreated == old(channelsCreated)
    {
      sendBuffer := sendBuffer + [msg];
    }

    /** sendMessage: hand the message, with the id it already has, to the worker. */
    method SendMessage(message: Message)
      requires Valid() && Bound(message)
      modifies this
      ensures Valid()
      ensures sendBuffer == old(sendBuffer) + [message]
      ensures Core() == old(Core()) && channelsCreated == old(channelsCreated)
    {
      AddMessageToSendBuffer(message);
    }

    /** sendMsg. */
    method SendMsg(msg: Option<Message>, now: int)
      requires Valid() && (msg.Some? ==> Bound(msg.value))
      modifies this
      ensures Valid()
      ensures Core() == R.Send(old(Core()), msg, now)
      ensures sendBuffer == old(sendBuffer) && channelsCreated == old(channelsCreated)
    {
      if msg.None? {
        return;
      }
      ghost var s := Core();
      var m := msg.value;
      var ch := m.channel.value;
      var msgKey := MessageKey(m.id, ch.remoteAddr, ch.remotePort);
      if m.kind == CON {
        if MaxRetransReached(m) {
          nonConfirmedMsgMap := nonConfirmedMsgMap - {msgKey};
          lost := lost + [ch];
          assert Core() == R.Send(s, msg, now);
          return;
        }
        m := IncRetransCounterAndTimeout(m);
        nonConfirmedMsgMap := nonConfirmedMsgMap[msgKey := m];
        timeoutQueue := Insert(timeoutQueue, TimeoutObject(msgKey, now + m.timeout));
        transmitted := transmitted + [R.Datagram(m, ch.remoteAddr, ch.remotePort)];
        assert Core() == R.Schedule(s, msg.value, now) == R.Send(s, msg, now);
      } else if m.kind == ACK || m.kind == RST {
        retransMsgMap := retransMsgMap[msgKey := m];
        transmitted := transmitted + [R.Datagram(m, ch.remoteAddr, ch.remotePort)];
        assert Core() == R.Send(s, msg, now);
      } else {
        transmitted := transmitted + [R.Datagram(m, ch.remoteAddr, ch.remotePort)];
        assert Core() == R.Send(s, msg, now);
      }
    }

    /** sendBufferedMessages: send everything buffered, oldest first, until the buffer is empty. */
    method SendBufferedMessages(now: int)
      requires Valid()
      modifies this
      ensures Valid() && sendBuffer == []
      ensures Core() == R.SendAll(old(Core()), old(sendBuffer), now)
      ensures channelsCreated == old(channelsCreated)
    {
      while sendBuffer != []
        invariant Valid()
        invariant R.SendAll(Core(), sendBuffer, now) == R.SendAll(old(Core()), old(sendBuffer), now)
        invariant channelsCreated == old(channelsCreated)
        decreases |sendBuffer|
      {
        var msg := sendBuffer[0];
        sendBuffer := sendBuffer[1..];
        SendMsg(Some(msg), now);
      }
    }

    /** getChannel: the channel registered for the peer, if any. */
    method GetChannel(addr: Addr, port: int) returns (channel: Option<Channel>)
      requires Valid()
      ensures channel.Some? <==> ChannelKey(addr, port) in channels
      ensures channel.Some? ==>
        channel.value == channels[ChannelKey(addr, port)] &&
        channel.value.remoteAddr == addr && channel.value.remotePort == port
    {
      channel := R.Get(channels, ChannelKey(addr, port));
    }

    /** addChannel. */
    method AddChannel(channel: Channel)
      requires Valid()
      modifies this
      ensures Valid()
      ensures Core() == R.AddChannel(old(Core()), channel)
      ensures sendBuffer == old(sendBuffer) && channelsCreated == old(channelsCreated)
    {
      channels := channels[ChannelKey(channel.remoteAddr, channel.remotePort) := channel];
    }

    /** removeChannel. */
    method RemoveChannel(channel: Channel)
      requires Valid()
      modifies this
      ensures Valid()
      ensures Core() == R.RemoveChannel(old(Core()), channel)
      ensures sendBuffer == old(sendBuffer) && channelsCreated == old(channelsCreated)
    {
      channels := channels - {ChannelKey(channel.remoteAddr, channel.remotePort)};
    }

    /** connect. */
    method Connect(client: Option<Client>, remoteAddress: Addr, remotePort: int) returns (channel: Option<Channel>)
      requires Valid()
      modifies this
      ensures Valid()
      ensures (Core(), channel) == R.Connect(old(Core()), client, remoteAddress, remotePort, old(channelsCreated))
      ensures channelsCreated == old(channelsCreated) + (if channel.Some? then 1 else 0)
      ensures sendBuffer == old(sendBuffer)
    {
      if client.None? {
        return None;
      }
      if ChannelKey(remoteAddress, remotePort) in channels {
        return None;
      }
      var ch := Channel(channelsCreated, remoteAddress, remotePort);
      channelsCreated := channelsCreated + 1;
      AddChannel(ch);
      return Some(ch);
    }

    /**
     * handleIncommingMessage. `creation` is what createServerChannel answers
     * if it is asked. A null answer makes addChannel dereference null; the
     * exception is caught like one from createServerChannel itself, so the
     * method returns there and the reset branch that follows is never reached.
     */
    method HandleIncomingMessage(parsed: Option<Message>, addr: Addr, port: int, creation: R.Creation, now: int)
      requires Valid()
      modifies this
      ensures Valid()
      ensures Core() == R.Receive(old(Core()), parsed, addr, port, creation, now)
      ensures sendBuffer == old(sendBuffer) && channelsCreated == old(channelsCreated)
    {
      if parsed.None? {
        return;
      }
      var msg := parsed.value;
      var msgKey := MessageKey(msg.id, addr, port);
      if msgKey in duplicateMap {
        SendMsg(R.Get(retransMsgMap, msgKey), now);
        return;
      }
      duplicateMap := duplicateMap[msgKey := true];

      var channel := GetChannel(addr, port);
      if channel.None? {
        if msg.kind == CON || msg.kind == NON {
          match creation
          case Created(ch) =>
            AddChannel(ch);
            channel := Some(ch);
          case _ =>
            return;
        } else {
          return;
        }
      }

      Deliver(msgKey, msg, channel.value);
    }

    /**
     * The tail of handleIncommingMessage: bind the message to its channel, let
     * a non-CON retire the pending CON under its key, and hand it to the channel.
     */
    method Deliver(msgKey: MessageKey, msg: Message, ch: Channel)
      requires Valid() && msgKey in duplicateMap && R.NotDelivered(delivered, msgKey)
      modifies this
      ensures Valid()
      ensures Core() == R.Deliver(old(Core()), msgKey, msg, ch)
      ensures sendBuffer == old(sendBuffer) && channelsCreated == old(channelsCreated)
    {
      if msg.kind != CON {
        nonConfirmedMsgMap := nonConfirmedMsgMap - {msgKey};
      }
      delivered := delivered + [R.Delivery(msgKey, msg.(channel := Some(ch)))];
    }

    /** handleTimeouts: fire every expired timer; answer the wait until the next one. */
    method HandleTimeouts(now: int) returns (nextTimeout: int)
      requires Valid()
      modifies this
      ensures Valid()
      ensures (Core(), nextTimeout) == R.HandleTimeouts(old(Core()), now)
      ensures sendBuffer == old(sendBuffer) && channelsCreated == old(channelsCreated)
    {
      nextTimeout := R.POLLING_INTERVALL;
      while true
        invariant Valid()
        invariant R.HandleTimeouts(Core(), now) == R.HandleTimeouts(old(Core()), now)
        invariant sendBuffer == old(sendBuffer) && channelsCreated == old(channelsCreated)
        decreases DueCount(timeoutQueue, now)
      {
        if timeoutQueue == [] {
          nextTimeout := R.POLLING_INTERVALL;
          break;
        }
        var tObj := timeoutQueue[0];
        nextTimeout := tObj.expires - now;
        if nextTimeout > 0 {
          break;
        }
        FireTimeout(now);
      }
    }

    /** One expired timer of handleTimeouts: poll it and resend whatever is still pending under its key. */
    method FireTimeout(now: int)
      requires Valid() && timeoutQueue != [] && timeoutQueue[0].expires <= now
      modifies this
      ensures Valid()
      ensures Core() == R.FireTimeout(old(Core()), now)
      ensures sendBuffer == old(sendBuffer) && channelsCreated == old(channelsCreated)
    {
      var tObj := timeoutQueue[0];
      timeoutQueue := timeoutQueue[1..];
      SendMsg(R.Get(nonConfirmedMsgMap, tObj.key), now);
    }

    /**
     * One iteration of run(): drain the outbound buffer, handle the datagram
     * the socket delivered (if any), fire the expired timers, and answer the
     * time the selector may wait.
     */
    method RunCycle(inbound: Option<R.Inbound>, creation: R.Creation, now: int) returns (waitFor: int)
      requires Valid()
      modifies this
      ensures Valid() && sendBuffer == []
      ensures (Core(), waitFor) == R.Cycle(old(Core()), old(sendBuffer), inbound, creation, now)
      ensures channelsCreated == old(channelsCreated)
    {
      SendBufferedMessages(now);
      if inbound.Some? {
        HandleIncomingMessage(inbound.value.parsed, inbound.value.addr, inbound.value.port, creation, now);
      }
      waitFor := HandleTimeouts(now);
    }
  }
}
