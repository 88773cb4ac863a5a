/**
 * The compile-time parameters of the VirtualWire modem, as the library's
 * header defines them, together with the facts that tie them together.
 *
 * Three of the header's macros are written without parentheses
 * (VW_MAX_PAYLOAD, VW_RAMP_TRANSITION, VW_MAX_VALUE_LEN). The constants below
 * carry their intended values; `TextualMaxPayloadTimes` shows what the
 * unparenthesised text of VW_MAX_PAYLOAD yields inside a product.
 */
module VwConstants {

  /** An 8-bit unsigned value (`uint8_t`). */
  type uint8 = x: int | 0 <= x < 256

  /** Maximum number of bytes in a message, counting the byte count and the FCS. */
  const MaxMessageLen: nat := 80

  /** Bytes of a message that are not payload: the count byte and the 2-byte FCS. */
  const CountLen: nat := 1
  const FcsLen: nat := 2
  const Overhead: nat := CountLen + FcsLen

  /** The maximum payload length. */
  const MaxPayload: nat := MaxMessageLen - 3

  /** The receiver ramp wraps modulo this number. */
  const RxRampLen: nat := 160

  /** Number of receiver samples per bit. */
  const RxSamplesPerBit: nat := 8

  /** Ramp increment with no transition. */
  const RampInc: nat := RxRampLen / RxSamplesPerBit

  /** Ramp position before which a transition retards the ramp. */
  const RampTransition: nat := RxRampLen / 2

  /** Distance of the two corrected increments from the nominal one. */
  const RampAdjust: nat := 9

  /** Increment used for a transition early in the ramp. */
  const RampIncRetard: nat := RampInc - RampAdjust

  /** Increment used for a transition late in the ramp. */
  const RampIncAdvance: nat := RampInc + RampAdjust

  /** Bits in one transmitted word (the 6-bit symbol of a 4-to-6 encoding). */
  const SymbolBits: nat := 6

  /** Alternating training bits, and the start symbol, that open every message. */
  const PreambleBits: nat := 36
  const StartSymbolBits: nat := 12

  /** Number of 6-bit words in the message header. */
  const HeaderLen: nat := 8

  /** Words each byte from the byte count onward becomes: one per nybble. */
  const WordsPerByte: nat := 2

  /** Longest value field of a float message. */
  const MaxValueLen: nat := MaxMessageLen - 3 - 4

  /**
   * The constants agree with the comments beside them: 160/8 = 20, the
   * transition point is 80, the corrected increments are 11 and 29, and
   * together the two lie symmetrically about the nominal increment.
   */
  lemma ConstantValues()
    ensures MaxPayload == 77 && MaxPayload == MaxMessageLen - Overhead
    ensures RampInc == 20 && RampInc * RxSamplesPerBit == RxRampLen
    ensures RampTransition == 80 && 2 * RampTransition == RxRampLen
    ensures RampIncRetard == 11 && RampIncAdvance == 29
    ensures RampIncRetard < RampInc < RampIncAdvance
    ensures RampInc - RampIncRetard == RampIncAdvance - RampInc == RampAdjust
    ensures RampIncAdvance < RxRampLen
    ensures MaxValueLen == 73
  {
  }

  /** The header's 8 words hold exactly the 36 training bits and the 12 start bits. */
  lemma HeaderHoldsPreambleAndStart()
    ensures HeaderLen * SymbolBits == PreambleBits + StartSymbolBits
  {
  }

  /**
   * What the text of VW_MAX_PAYLOAD becomes after `k*` is written in front of
   * it: the macro expands to `k*80-3`, not `k*(80-3)`.
   */
  function TextualMaxPayloadTimes(k: int): (v: int)
  {
    k * MaxMessageLen - 3
  }

  /**
   * The textual expansion agrees with the intended product only for k = 1;
   * for `2*VW_MAX_PAYLOAD` it gives 157 instead of 154.
   */
  lemma TextualExpansionDiffers(k: int)
    ensures TextualMaxPayloadTimes(k) == k * MaxPayload <==> k == 1
    ensures TextualMaxPayloadTimes(2) == 157 && 2 * MaxPayload == 154
  {
  }
}
