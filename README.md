# VirtualWire receive PLL and message framing, in Dafny

VirtualWire is an Arduino library that sends short unaddressed messages over
cheap ASK radio links. This project models what the library's header,
`libraries/VirtualWire/VirtualWire.h`, fixes about the modem:

- **the receiver's software phase-locked loop** (`pll.dfy`, module `Pll`).
  A ramp advances once per receiver sample and wraps modulo
  VW_RX_RAMP_LEN = 160. At 8 samples per bit, it advances by 20 with no
  transition on the line, by 11 for a transition before ramp position 80, and
  by 29 for a transition from 80 on. A wrap is the moment a bit is sampled.
  The correction pulls the wraps onto the transmitter's transitions: the ramp
  value at which each transition is seen moves 9 away from 80, toward 0
  mod 160.
  `Step` is one sample. `Run` folds `Step` over a sequence of transition
  flags and counts the sampled bits.
- **message sizing and send acceptance** (`framing.dfy`, module `Framing`).
  A message holds at most 80 bytes, counting the byte count and the 2-byte
  FCS, so a payload holds at most 77. The header is 8 six-bit words: 36
  training bits and a 12-bit start symbol. Each byte from the count onward
  becomes two words. `Send` models whether `vw_send` accepts a message and
  which count byte and payload it transmits.
- **the application's view of reception** (`receive.dfy`, module `Receive`).
  This is a single message slot, filled whether the checksum was good or
  not, with an unread flag. It also holds the 8-bit good and bad counters.
  `GetMessage` models `vw_get_message`.
- **the constants** (`constants.dfy`, module `VwConstants`). These are the
  `#define`s with their intended values.

The modules are pure functions over values, with lemmas. The header contains
only constants and `extern` declarations, so there is no state to update in
place.

Three macros have no parentheses around their bodies: VW_MAX_PAYLOAD,
VW_RAMP_TRANSITION and VW_MAX_VALUE_LEN. The model uses their intended values
of 77, 80 and 73. Used textually inside a larger expression they can give
other values. For example, `2*VW_MAX_PAYLOAD` expands to `2*80-3`, which is
157 and not 154. `VwConstants.TextualExpansionDiffers` states this. No such
use appears in the header itself.

The header leaves several points open. The model settles them as follows;
each is a reading of the header, not something the header states:

- **Count byte.** Line 224 names a "byte count" without giving its value. The
  model reads it as the length of the whole message, the count byte and the
  2-byte FCS included. That is the measure VW_MAX_MESSAGE_LEN uses (line
  194), and it is why the maximum payload is 80 − 3 (line 198). A 3-byte
  payload therefore carries a count of 6.
- **Good and bad counters.** Lines 346-348 define the bad count as messages
  with bogus lengths. The model counts only bogus-length frames as bad. A
  completed frame bumps the good count whether its checksum was good or not,
  and carries its checksum status to `GetMessage`. Lines 341-343 call the
  good count the count of "good messages", so counting checksum-failed
  frames there is the model's reading.
- **Overwriting.** The header is silent on whether a new message replaces an
  unread one. The model keeps one slot, and the latest completed message
  wins.
- **No message waiting.** Line 330 says `*len` "will be set to the actual
  number of octets read", with no condition. Lines 327-328 describe copying
  only when a message is available. With no message, the model copies
  nothing and leaves `*len` as it was.
- **Busy transmitter.** The header does not say what `vw_send` does while a
  transmission is in flight. Line 320 gives message length as the only reason
  for false. The in-flight case is not modelled.

`vw_have_message`, `vw_get_rx_good` and `vw_get_rx_bad` are plain reads of
the store (`Receive.HaveMessage`, `Receive.RxGood`, `Receive.RxBad`). What
they return is stated through the lemmas `ReadOnce`, `DeliverThenGet`,
`CountersWrap` and `BadCounterOverflows` below.

## Model

| member | source | states |
|---|---|---|
| VwConstants.ConstantValues | libraries/VirtualWire/VirtualWire.h:194-220 | The macros agree with their comments: payload 77 = 80 − 3, increment 20 with 20 × 8 = 160, transition point 80 = 160/2, retard 11 and advance 29, both exactly 9 from the nominal step, and each step less than one ramp length. The value length is 73. |
| VwConstants.HeaderHoldsPreambleAndStart | libraries/VirtualWire/VirtualWire.h:222-229 | The 8 header words of 6 bits hold exactly 36 training bits plus 12 start-symbol bits. |
| VwConstants.TextualExpansionDiffers | libraries/VirtualWire/VirtualWire.h:198 | The unparenthesised VW_MAX_PAYLOAD multiplied by k equals k × 77 only when k = 1. `2*VW_MAX_PAYLOAD` gives 157 rather than 154. |
| Pll.IncrementCases | libraries/VirtualWire/VirtualWire.h:206-220 | The ramp advances by 20 with no transition, by 11 for a transition at ramp < 80, and by 29 for a transition at ramp ≥ 80. It is always between the retard and advance increments. |
| Pll.Step | libraries/VirtualWire/VirtualWire.h:200-220 | One sample keeps the ramp in 0..159. The new ramp is (ramp + increment) mod 160. A bit is sampled exactly when the ramp wraps, that is, when it ends lower than it started. |
| Pll.StepFitsInByte | libraries/VirtualWire/VirtualWire.h:200-220 | The sum before the wrap is at most 159 + 29 = 188, so it would fit an 8-bit register. |
| Pll.TransitionShiftsPhase | libraries/VirtualWire/VirtualWire.h:206-220 | A transition moves the next ramp value back by 9 (mod 160) when seen before position 80. It moves it forward by 9 from position 80 on. Both are relative to the step without a transition. |
| Pll.EdgeLock | libraries/VirtualWire/VirtualWire.h:206-220 | Over one bit period (8 samples) that starts with a transition seen at ramp r, the next transition one bit later is seen at (r − 9) mod 160 when r < 80 and at (r + 9) mod 160 when r ≥ 80. Transitions are pulled away from mid-ramp toward the wrap. |
| Pll.Run | libraries/VirtualWire/VirtualWire.h:200-204 | Over any run of samples the ramp stays in 0..159, and at most one bit is sampled per sample. |
| Pll.RunBalance | libraries/VirtualWire/VirtualWire.h:200-201 | The starting ramp plus the total advance equals the final ramp plus 160 times the number of bits sampled. Every wrap removes exactly one ramp length. |
| Pll.AdvanceBounds | libraries/VirtualWire/VirtualWire.h:206-220 | Over n samples the total advance lies between 11n and 29n. It is exactly 20n when no transition occurs. |
| Pll.QuietRun | libraries/VirtualWire/VirtualWire.h:200-212 | With no transitions, after n samples the ramp is (ramp + 20n) mod 160, and (ramp + 20n) div 160 bits have been sampled. |
| Pll.QuietBitPeriod | libraries/VirtualWire/VirtualWire.h:203-212 | With no transitions, every 8 samples return the ramp to its starting value and sample exactly one bit. In general, 8k samples sample k bits. |
| Pll.SampleRateBounds | libraries/VirtualWire/VirtualWire.h:206-220 | For any transitions, the number w of bits sampled in n samples satisfies 160w ≤ ramp + 29n and ramp + 11n < 160(w + 1). This is the correction range of the loop. |
| Pll.RunAppend | libraries/VirtualWire/VirtualWire.h:200-204 | Running over two consecutive stretches of samples equals running over the second from where the first ended. The sampled bits add up. |
| Framing.CountFor | libraries/VirtualWire/VirtualWire.h:194-198 | The count byte for a payload of n bytes is n + 3, the length of the whole message with count byte and FCS. Removing the 3 overhead bytes gives back n, and the count is within VW_MAX_MESSAGE_LEN exactly when the payload is within VW_MAX_PAYLOAD. This value is the model's reading of line 224's "byte count". |
| Framing.Send | libraries/VirtualWire/VirtualWire.h:316-321 | `vw_send` accepts exactly when the count byte, payload and 2-byte FCS fit in 80 bytes. An accepted frame carries the caller's first `len` octets. Its count byte is valid and announces `len`. |
| Framing.SendAcceptsUpTo77 | libraries/VirtualWire/VirtualWire.h:194-198 | `vw_send` accepts exactly the lengths up to 77 = VW_MAX_MESSAGE_LEN − 3. |
| Framing.CountRoundTrip | libraries/VirtualWire/VirtualWire.h:194-198 | A payload length is at most 77 exactly when its count byte (length + 3) is within 3..80. Count byte and payload length convert into each other without loss across that range. |
| Framing.FrameSize | libraries/VirtualWire/VirtualWire.h:222-229 | A message with n payload bytes takes 8 + 2(n + 3) six-bit words, which is 48 header bits plus 12 bits per byte. The longest accepted message takes 168 words, or 1008 bits. |
| Framing.SentFrameSize | libraries/VirtualWire/VirtualWire.h:222-229 | Every frame `vw_send` accepts takes at most the 168 words of a maximum-length message. |
| Receive.Initial | libraries/VirtualWire/VirtualWire.h:323-325 | Assuming both counters start at 0, which the header does not state: before anything is received, no message is available and both counters are 0. |
| Receive.Inc8 | libraries/VirtualWire/VirtualWire.h:341-351 | The counters are 8-bit. One increment is modulo 256. |
| Receive.Deliver | libraries/VirtualWire/VirtualWire.h:278-351 | A completed message, good checksum or not, becomes the available message with its checksum status (lines 278-282). It replaces any unread one and increments the good count mod 256. The counter updates follow lines 341-351. A bogus-length frame increments the bad count mod 256; that it leaves the slot untouched is an assumption (see Left out). |
| Receive.GetMessage | libraries/VirtualWire/VirtualWire.h:327-332 | Returns true exactly when a message was available and its checksum was good. When one was available, it copies min(capacity, message length) octets, the front of the message. It reports that number and marks the message read. Otherwise it copies nothing and leaves `*len` as it was. |
| Receive.GetMessageTruncates | libraries/VirtualWire/VirtualWire.h:327-332 | The copy never exceeds the caller's space and is always a prefix of the message. It is the whole message when it fits. |
| Receive.ReadOnce | libraries/VirtualWire/VirtualWire.h:323-332 | After `vw_get_message`, `vw_have_message` is false, and a second `vw_get_message` returns false and copies nothing. |
| Receive.DeliverThenGet | libraries/VirtualWire/VirtualWire.h:327-351 | A delivered message that fits the caller's buffer is read back whole, with its checksum status. Reading changes neither counter. |
| Receive.LatestWins | libraries/VirtualWire/VirtualWire.h:278-282 | Of two completed messages received without a read in between, the second is the one available. |
| Receive.SendThenReceive | libraries/VirtualWire/VirtualWire.h:316-332 | A message that `vw_send` accepts reads back as the octets sent, with a good checksum, once received intact. |
| Receive.DeliverAll | libraries/VirtualWire/VirtualWire.h:327-332 | Given events whose payloads are within the 77-byte bound the receiver enforces, any series of them keeps the message slot within that bound. |
| Receive.CountersWrap | libraries/VirtualWire/VirtualWire.h:341-351 | After any series of events, the good count equals its starting value plus the number of completed frames, mod 256. The bad count likewise adds the number of bogus-length frames, mod 256. |
| Receive.BadCounterOverflows | libraries/VirtualWire/VirtualWire.h:346-351 | 256 bad frames in a row bring the bad count back to its starting value. The count cannot be relied on as an exact total. |

## Left out

- The 4-to-6 symbol table, the CRC, the transmit bit emitter and the receive state machine. VirtualWire.cpp is not part of this model. Only the counts of words and bytes are modelled, and the checksum status arrives as a flag in `Receive.RxEvent`.
- The bounds the receive state machine applies to an incoming count byte are not modelled. `Framing.ValidCount` (3..80) is derived from the header's definition of a message, not from the receiver's code.
- Framing.Send: does not model `vw_send` while a transmission is in flight, which the header does not describe, nor `vw_tx_active`. The transmit engine is not part of this model.
- Receive.Deliver: that a bogus-length frame leaves the message slot and its unread flag untouched is an assumption. The header (lines 346-351) only says such frames are counted as bad. Whether the receiver builds frames in the slot's own buffer is not part of this model.
- Concurrency between the timer interrupt and the foreground, and the atomicity of the message handoff.
- Pin, polarity and timer configuration: `vw_set_tx_pin`, `vw_set_rx_pin`, `vw_set_rx_inverted`, `vw_set_ptt_pin`, `vw_set_ptt_inverted` and `vw_setup`. These are hardware register setup.
- `vw_rx_start`, `vw_rx_stop`, `vw_wait_tx`, `vw_wait_rx` and `vw_wait_rx_max`. These enable interrupts and busy-wait on a millisecond clock.
- `vw_send_float`, `vw_get_float` and the data-type tags VW_TEMPERATURE_DATA_TYPE and VW_LIGHT_DATA_TYPE. These involve floating-point scaling. Only VW_MAX_VALUE_LEN is kept, as a constant.
- `libraries/Robot/robot.cpp`. It is motor, camera, compass, sensor and servo glue and does not use the radio.
