/**
 * The receive path as a value: the bytes held in rxbuf, the idle timer, and
 * the messages posted to the writer thread. rx_cb, the timer expiry and one
 * pass of the writer loop are each one atomic step on this state.
 */
module Accumulator {
  import opened Types
  import opened Riot

  /** send_msg (idle timeout, flush what is held) and send_msg_ovf (rxbuf overflowed). */
  datatype Signal = Flush | Overflow

  /**
   * held is rxbuf[0..num_bytes_received); timerArmed says whether send_timer
   * is pending; signals lists every message posted to the writer, oldest first.
   */
  datatype RxState = RxState(held: seq<uint8>, timerArmed: bool, signals: seq<Signal>)

  /** A module that has received nothing since its last flush and has no timer pending. */
  predicate Idle(s: RxState) {
    s.held == [] && !s.timerArmed
  }

  /** rx_cb: one received byte. */
  function Receive(s: RxState, b: uint8): (r: RxState)
    requires |s.held| <= RXBUF_SIZE
    ensures |r.held| <= RXBUF_SIZE
  {
    if |s.held| == RXBUF_SIZE then RxState([], s.timerArmed, s.signals + [Overflow])
    else RxState(s.held + [b], true, s.signals)
  }

  /** rx_cb applied to each byte of bytes in turn. */
  function Feed(s: RxState, bytes: seq<uint8>): (r: RxState)
    requires |s.held| <= RXBUF_SIZE
    ensures |r.held| <= RXBUF_SIZE
    decreases |bytes|
  {
    if bytes == [] then s
    else Receive(Feed(s, bytes[..|bytes| - 1]), bytes[|bytes| - 1])
  }

  /** Expiry of send_timer: it posts send_msg once and is no longer pending. */
  function Expire(s: RxState): (r: RxState)
    ensures !r.timerArmed && r.held == s.held
    ensures r.signals == s.signals + (if s.timerArmed then [Flush] else [])
  {
    if s.timerArmed then s.(timerArmed := false, signals := s.signals + [Flush]) else s
  }

  /**
   * One pass of the writer loop on the receive state: the held bytes are
   * consumed (num_bytes_received is cleared); the timer and the messages
   * already posted are not the writer's to change.
   */
  function Publish(s: RxState): (r: RxState)
    ensures r.held == [] && r.timerArmed == s.timerArmed && r.signals == s.signals
    ensures Idle(r) <==> !s.timerArmed
  {
    s.(held := [])
  }

  /** The module_data_t the writer builds for a signal from the bytes held. */
  function Frame(sig: Signal, held: seq<uint8>): (payload: seq<uint8>)
    ensures |payload| >= 2 && payload[0] == MID
    ensures payload[1] == (if sig == Flush then REPLY_RECEIVED else REPLY_ERR_OVF)
    ensures payload[2..] == (if sig == Flush then held else [])
  {
    match sig
    case Flush => [MID, REPLY_RECEIVED] + held
    case Overflow => [MID, REPLY_ERR_OVF]
  }

  /**
   * Bytes that fit in the buffer are appended in order, no message is
   * posted, and the timer is armed as soon as one byte has arrived.
   */
  lemma {:induction false} FeedWithinCapacity(s: RxState, bytes: seq<uint8>)
    requires |s.held| + |bytes| <= RXBUF_SIZE
    ensures Feed(s, bytes) == RxState(s.held + bytes, s.timerArmed || bytes != [], s.signals)
  {
    if bytes != [] {
      var init := bytes[..|bytes| - 1];
      FeedWithinCapacity(s, init);
      assert s.held + init + [bytes[|bytes| - 1]] == s.held + bytes;
    }
  }

  /**
   * The byte that arrives when the buffer is full empties it, posts exactly
   * one Overflow and is itself dropped; the pending timer is left as it was.
   */
  lemma OverflowOnFullBuffer(s: RxState, bytes: seq<uint8>)
    requires bytes != [] && |s.held| + |bytes| == RXBUF_SIZE + 1
    ensures Feed(s, bytes) == RxState([], s.timerArmed || |bytes| > 1, s.signals + [Overflow])
  {
    FeedWithinCapacity(s, bytes[..|bytes| - 1]);
  }

  /**
   * A burst of 1..RXBUF_SIZE bytes arriving at an idle module, followed by
   * the idle timeout, posts exactly one Flush; the writer then publishes
   * those bytes in order and the module is idle again.
   */
  lemma OneBurstOneFrame(s: RxState, bytes: seq<uint8>)
    requires Idle(s) && 1 <= |bytes| <= RXBUF_SIZE
    ensures var t := Expire(Feed(s, bytes));
      && t.signals == s.signals + [Flush]
      && Frame(Flush, t.held) == [MID, REPLY_RECEIVED] + bytes
      && Idle(Publish(t))
  {
    FeedWithinCapacity(s, bytes);
  }

  /**
   * Overflow does not cancel the idle timer: after RXBUF_SIZE + 1 bytes at an
   * idle module, the writer is sent Overflow and then, at the timeout, Flush,
   * which publishes a RECEIVED frame with no data.
   */
  lemma OverflowThenEmptyFrame(s: RxState, bytes: seq<uint8>)
    requires Idle(s) && |bytes| == RXBUF_SIZE + 1
    ensures var t := Expire(Feed(s, bytes));
      && t.signals == s.signals + [Overflow, Flush]
      && Frame(Flush, t.held) == [MID, REPLY_RECEIVED]
  {
    OverflowOnFullBuffer(s, bytes);
    assert s.signals + [Overflow] + [Flush] == s.signals + [Overflow, Flush];
  }
}
