/**
 * The receive side as the application sees it: a single slot holding the
 * last completed message (delivered whether its checksum was good or not),
 * an unread flag, and two 8-bit counters of good and bad messages.
 *
 * The bit-level receive state machine that fills the slot is not part of
 * this model; its outcomes arrive here as `RxEvent`s.
 */
module Receive {
  import opened VwConstants
  import Framing

  /** The receiver's message slot and counters. */
  datatype Store = Store(
    unread: bool,           // a completed message has not been read yet
    message: seq<uint8>,    // its payload, without count byte and FCS
    checksumGood: bool,     // whether its FCS checked out
    good: uint8,            // count of messages received
    bad: uint8              // count of messages with bogus lengths
  )

  /** The slot never holds more than a maximum payload. */
  predicate Valid(s: Store)
  {
    |s.message| <= MaxPayload
  }

  /** What the receive state machine reports when it finishes with a frame. */
  datatype RxEvent =
    | Completed(payload: seq<uint8>, checksumGood: bool)
    | BogusLength

  predicate ValidEvent(e: RxEvent)
  {
    e.Completed? ==> |e.payload| <= MaxPayload
  }

  /** The state before anything is received. */
  function Initial(): (s: Store)
    ensures Valid(s) && !s.unread && s.good == 0 && s.bad == 0
  {
    Store(false, [], false, 0, 0)
  }

  /** An 8-bit counter incremented once: 255 goes back to 0. */
  function Inc8(c: uint8): (r: uint8)
    ensures r == (c + 1) % 256
  {
    if c == 255 then 0 else c + 1
  }

  /**
   * A finished frame: a completed one replaces whatever is in the slot, read
   * or not, and counts as received; one with a bogus length counts as bad.
   * That a bogus-length frame leaves the slot untouched is an assumption of
   * this model: the receiver's buffering is not part of it.
   */
  function Deliver(s: Store, e: RxEvent): (t: Store)
    requires Valid(s) && ValidEvent(e)
    ensures Valid(t)
    ensures e.Completed? ==> t.unread && t.message == e.payload && t.checksumGood == e.checksumGood
    ensures e.Completed? ==> t.good == (s.good + 1) % 256 && t.bad == s.bad
    ensures e.BogusLength? ==> t.bad == (s.bad + 1) % 256 && t == s.(bad := t.bad)
  {
    match e
    case Completed(p, ok) => Store(true, p, ok, Inc8(s.good), s.bad)
    case BogusLength => s.(bad := Inc8(s.bad))
  }

  /** `vw_have_message`: whether an unread message is available. */
  function HaveMessage(s: Store): (available: bool)
  {
    s.unread
  }

  /** `vw_get_rx_good`. */
  function RxGood(s: Store): (count: uint8)
  {
    s.good
  }

  /** `vw_get_rx_bad`. */
  function RxBad(s: Store): (count: uint8)
  {
    s.bad
  }

  /** What `vw_get_message` returns, writes to the caller's buffer and `*len`, and leaves behind. */
  datatype GetResult = GetResult(good: bool, copied: seq<uint8>, len: uint8, store: Store)

  /**
   * `vw_get_message(buf, len)` with `len` octets of room: when a message is
   * available, copies as much of it as fits, sets `*len` to the number
   * copied and marks the message read; returns true only when there was a
   * message and its checksum was good. With no message nothing is copied
   * and `*len` is not written.
   */
  function GetMessage(s: Store, capacity: uint8): (r: GetResult)
    requires Valid(s)
    ensures r.good <==> s.unread && s.checksumGood
    ensures s.unread ==> r.len <= capacity && r.len <= |s.message|
    ensures s.unread ==> r.len == capacity || r.len == |s.message|
    ensures s.unread ==> r.copied == s.message[..r.len]
    ensures s.unread ==> r.store == s.(unread := false)
    ensures !s.unread ==> r.copied == [] && r.len == capacity && r.store == s
  {
    if !s.unread then GetResult(false, [], capacity, s)
    else
      var n := if capacity > |s.message| then |s.message| else capacity;
      GetResult(s.checksumGood, s.message[..n], n, s.(unread := false))
  }

  /** The copy never exceeds the caller's room and is always the front of the message. */
  lemma GetMessageTruncates(s: Store, capacity: uint8)
    requires Valid(s)
    ensures |GetMessage(s, capacity).copied| <= capacity
    ensures s.unread ==> |GetMessage(s, capacity).copied| == GetMessage(s, capacity).len
    ensures GetMessage(s, capacity).copied <= s.message
    ensures s.unread && capacity >= |s.message| ==> GetMessage(s, capacity).copied == s.message
  {
  }

  /** A message is handed out once: after reading, no message is available. */
  lemma ReadOnce(s: Store, c1: uint8, c2: uint8)
    requires Valid(s)
    ensures !HaveMessage(GetMessage(s, c1).store)
    ensures var r := GetMessage(GetMessage(s, c1).store, c2); !r.good && r.copied == []
  {
  }

  /**
   * A delivered message is read back whole, with its checksum status, when
   * the caller has room for it; reading touches neither counter.
   */
  lemma DeliverThenGet(s: Store, payload: seq<uint8>, ok: bool, capacity: uint8)
    requires Valid(s) && |payload| <= MaxPayload && |payload| <= capacity
    ensures var r := GetMessage(Deliver(s, Completed(payload, ok)), capacity);
      r.good == ok && r.copied == payload && r.len == |payload|
      && r.store.good == RxGood(Deliver(s, Completed(payload, ok)))
      && r.store.bad == RxBad(s)
  {
  }

  /** An unread message is overwritten by the next completed one: the latest wins. */
  lemma LatestWins(s: Store, p1: seq<uint8>, ok1: bool, p2: seq<uint8>, ok2: bool)
    requires Valid(s) && |p1| <= MaxPayload && |p2| <= MaxPayload
    ensures var t := Deliver(Deliver(s, Completed(p1, ok1)), Completed(p2, ok2));
      t.message == p2 && t.checksumGood == ok2 && t.good == (s.good + 2) % 256
  {
  }

  /** Whatever `vw_send` accepts, once received intact, reads back as the bytes sent. */
  lemma SendThenReceive(buf: seq<uint8>, len: uint8, s: Store)
    requires len <= |buf| && Valid(s)
    ensures Framing.Send(buf, len).Some? ==>
      var r := GetMessage(Deliver(s, Completed(Framing.Send(buf, len).value.payload, true)), 255);
      r.good && r.copied == buf[..len] && r.len == len
  {
  }

  /** The store after a series of receive events. */
  function DeliverAll(s: Store, es: seq<RxEvent>): (t: Store)
    requires Valid(s) && forall i :: 0 <= i < |es| ==> ValidEvent(es[i])
    ensures Valid(t)
    decreases |es|
  {
    if es == [] then s else DeliverAll(Deliver(s, es[0]), es[1..])
  }

  /** Number of events in es that are completed frames. */
  function CountCompleted(es: seq<RxEvent>): (n: nat)
  {
    if es == [] then 0 else (if es[0].Completed? then 1 else 0) + CountCompleted(es[1..])
  }

  /** Number of events in es that are bogus-length frames. */
  function CountBogus(es: seq<RxEvent>): (n: nat)
  {
    if es == [] then 0 else (if es[0].BogusLength? then 1 else 0) + CountBogus(es[1..])
  }

  /**
   * The counters are 8-bit: after any series of events each one equals its
   * starting value plus the number of matching events, modulo 256.
   */
  lemma {:induction false} CountersWrap(s: Store, es: seq<RxEvent>)
    requires Valid(s) && forall i :: 0 <= i < |es| ==> ValidEvent(es[i])
    ensures RxGood(DeliverAll(s, es)) == (s.good + CountCompleted(es)) % 256
    ensures RxBad(DeliverAll(s, es)) == (s.bad + CountBogus(es)) % 256
    decreases |es|
  {
    if es != [] {
      var rest := es[1..];
      assert forall i :: 0 <= i < |rest| ==> rest[i] == es[i + 1];
      CountersWrap(Deliver(s, es[0]), rest);
    }
  }

  /** 256 bad frames in a row bring the bad counter back to where it was. */
  lemma BadCounterOverflows(s: Store)
    requires Valid(s)
    ensures RxBad(DeliverAll(s, seq(256, _ => BogusLength))) == RxBad(s)
  {
    var es := seq(256, _ => BogusLength);
    CountersWrap(s, es);
    AllBogus(es);
  }

  lemma {:induction false} AllBogus(es: seq<RxEvent>)
    requires forall i :: 0 <= i < |es| ==> es[i].BogusLength?
    ensures CountBogus(es) == |es|
    decreases |es|
  {
    if es != [] {
      var rest := es[1..];
      assert forall i :: 0 <= i < |rest| ==> rest[i] == es[i + 1];
      AllBogus(rest);
    }
  }
}
