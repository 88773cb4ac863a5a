/**
 * Sizing of an outgoing message. A message is the header (training bits and
 * start symbol), then the byte count, the payload and the 2-byte FCS, each of
 * those bytes sent as two 6-bit words. The symbol table and the CRC that fill
 * in the words' values are not part of this model; only the counts are.
 */
module Framing {
  import opened VwConstants

  datatype Option<T> = None | Some(value: T)

  /** What `vw_send` hands to the transmitter: the byte count and the payload. */
  datatype Frame = Frame(count: uint8, payload: seq<uint8>)

  /**
   * The value of the count byte for a payload of the given length: the
   * length of the whole message, the count byte and the 2-byte FCS included,
   * the same measure as VW_MAX_MESSAGE_LEN.
   */
  function CountFor(payloadLen: nat): (count: nat)
    ensures count - Overhead == payloadLen
    ensures count <= MaxMessageLen <==> payloadLen <= MaxPayload
  {
    payloadLen + Overhead
  }

  /** The payload length that a count byte announces. */
  function PayloadLenOf(count: nat): (payloadLen: int)
  {
    count - Overhead
  }

  /** A count byte that describes a message the receiver can hold. */
  predicate ValidCount(count: int)
  {
    Overhead <= count <= MaxMessageLen
  }

  /** Number of 6-bit words on air for a message carrying the given payload length. */
  function WordsFor(payloadLen: nat): (words: nat)
  {
    HeaderLen + WordsPerByte * CountFor(payloadLen)
  }

  /** Number of 6-bit words on air for a frame. */
  function Words(f: Frame): (words: nat)
  {
    WordsFor(|f.payload|)
  }

  /**
   * `vw_send(buf, len)`: accepted exactly when the whole message, count byte
   * and FCS included, fits the maximum message length; otherwise nothing is
   * sent. The caller's buffer holds at least `len` octets.
   */
  function Send(buf: seq<uint8>, len: uint8): (r: Option<Frame>)
    requires len <= |buf|
    ensures r.Some? <==> CountFor(len) <= MaxMessageLen
    ensures r.Some? ==> r.value.payload == buf[..len]
    ensures r.Some? ==> ValidCount(r.value.count) && PayloadLenOf(r.value.count) == len
  {
    if len > MaxPayload then None
    else Some(Frame(len + Overhead, buf[..len]))
  }

  /** `vw_send` refuses exactly the lengths above VW_MAX_MESSAGE_LEN - 3, i.e. above 77. */
  lemma SendAcceptsUpTo77(buf: seq<uint8>, len: uint8)
    requires len <= |buf|
    ensures Send(buf, len).Some? <==> len <= 77
  {
  }

  /** Count byte and payload length determine each other across the valid range. */
  lemma CountRoundTrip(payloadLen: nat, count: int)
    ensures payloadLen <= MaxPayload <==> ValidCount(CountFor(payloadLen))
    ensures PayloadLenOf(CountFor(payloadLen)) == payloadLen
    ensures ValidCount(count) ==> 0 <= PayloadLenOf(count) <= MaxPayload
    ensures ValidCount(count) ==> CountFor(PayloadLenOf(count)) == count
  {
  }

  /**
   * A message of n payload bytes takes 8 + 2(n + 3) words; the header is
   * 48 bits; the longest accepted message takes 168 words, 1008 bits.
   */
  lemma FrameSize(n: nat)
    ensures WordsFor(n) == 8 + 2 * (n + 3)
    ensures SymbolBits * WordsFor(n) == PreambleBits + StartSymbolBits + 12 * (n + 3)
    ensures n <= MaxPayload ==> WordsFor(n) <= 168
    ensures WordsFor(MaxPayload) == 168 && SymbolBits * WordsFor(MaxPayload) == 1008
  {
  }

  /** Every frame `vw_send` accepts fits in 168 words. */
  lemma SentFrameSize(buf: seq<uint8>, len: uint8)
    requires len <= |buf|
    ensures Send(buf, len).Some? ==>
      Words(Send(buf, len).value) == WordsFor(len) <= WordsFor(MaxPayload)
  {
  }
}
