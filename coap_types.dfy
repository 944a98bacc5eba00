/** A value that may be absent: stands for a Java reference that may be null. */
module Options {
  datatype Option<T> = None | Some(value: T)
}

/**
 * The entities the socket handler works on: messages (an opaque record whose
 * wire format is not modelled), the identity keys MessageKey and ChannelKey,
 * the timer entries of the retransmission queue, and the message's own
 * retransmission policy.
 */
module CoapTypes {
  import opened Options

  /** An IP address, as the bytes of an InetAddress. */
  type Addr = seq<bv8>

  datatype MessageType = CON | NON | ACK | RST

  /** Replies are cached for replay on a duplicate; they are never retransmitted by the scheduler. */
  predicate IsReply(t: MessageType) {
    t == ACK || t == RST
  }

  /**
   * A logical session with one peer. `id` stands for the identity of the
   * Java channel object; the remote address and port are what
   * getRemoteAddress() and getRemotePort() answer.
   */
  datatype Channel = Channel(id: nat, remoteAddr: Addr, remotePort: int)

  /** An opaque client capability passed to connect (non-null in Java terms). */
  datatype Client = Client(id: nat)

  /**
   * A message as the handler sees it: its id, its type, the retransmission
   * counter and current timeout that the scheduler advances, and the channel
   * it is bound to (None for a freshly parsed inbound message).
   */
  datatype Message = Message(
    id: int,
    kind: MessageType,
    retransCounter: nat,
    timeout: nat,
    channel: Option<Channel>)

  /** (message id, peer address, peer port) with structural equality. */
  datatype MessageKey = MessageKey(msgId: int, addr: Addr, port: int)

  /** (peer address, peer port) with structural equality. */
  datatype ChannelKey = ChannelKey(addr: Addr, port: int)

  /** A pending retransmission: the message key and its absolute expiry instant in ms. */
  datatype TimeoutObject = TimeoutObject(key: MessageKey, expires: int)

  predicate Bound(m: Message) {
    m.channel.Some?
  }

  /** The key under which an outbound message is stored: its id and its channel's peer. */
  function KeyOf(m: Message): MessageKey
    requires Bound(m)
  {
    MessageKey(m.id, m.channel.value.remoteAddr, m.channel.value.remotePort)
  }

  function ChannelKeyOf(ch: Channel): ChannelKey {
    ChannelKey(ch.remoteAddr, ch.remotePort)
  }

  // The retransmission policy belongs to the message class, whose source is
  // not part of this model; these are the default transmission parameters of
  // section 4.8 of RFC 7252 (without the random factor).
  const MAX_RETRANSMIT: nat := 4
  const ACK_TIMEOUT_MS: nat := 2000

  predicate MaxRetransReached(m: Message) {
    m.retransCounter >= MAX_RETRANSMIT
  }

  /**
   * One more transmission: the counter goes up by one and the timeout backs
   * off (it never shrinks and is always positive afterwards); nothing else
   * about the message changes.
   */
  function IncRetransCounterAndTimeout(m: Message): (r: Message)
    ensures r.retransCounter == m.retransCounter + 1
    ensures r.timeout > 0 && r.timeout >= m.timeout
    ensures r.id == m.id && r.kind == m.kind && r.channel == m.channel
  {
    m.(retransCounter := m.retransCounter + 1,
       timeout := if m.timeout == 0 then ACK_TIMEOUT_MS else 2 * m.timeout)
  }
}
