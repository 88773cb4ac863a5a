/**
 * The receiver's software phase-locked loop. A ramp counter advances once per
 * receiver sample; a wrap past the ramp length is the moment a bit is
 * sampled. A transition on the input line seen early in the ramp makes the
 * step smaller (retard), one seen late makes it larger (advance). Either way
 * the ramp value at which the next transition is seen moves away from the
 * transition point (80) and toward 0 mod 160, so the loop lines its wraps up
 * with the transmitter's transitions (`EdgeLock`).
 */
module Pll {
  import opened VwConstants

  /** A ramp value the receiver can hold between samples. */
  predicate InRange(ramp: int)
  {
    0 <= ramp < RxRampLen
  }

  /** The ramp after one sample, and whether a bit is sampled at this sample. */
  datatype Tick = Tick(ramp: int, sample: bool)

  /** The amount the ramp advances at one sample. */
  function Increment(ramp: int, transition: bool): (inc: nat)
  {
    if !transition then RampInc
    else if ramp < RampTransition then RampIncRetard
    else RampIncAdvance
  }

  /** The three increments, with their values written out. */
  lemma IncrementCases(ramp: int, transition: bool)
    ensures !transition ==> Increment(ramp, transition) == 20
    ensures transition && ramp < 80 ==> Increment(ramp, transition) == 11
    ensures transition && ramp >= 80 ==> Increment(ramp, transition) == 29
    ensures RampIncRetard <= Increment(ramp, transition) <= RampIncAdvance
  {
  }

  /**
   * One receiver sample: advance the ramp, and when it reaches the ramp length
   * take it back by the ramp length and sample a bit.
   */
  function Step(ramp: int, transition: bool): (t: Tick)
    requires InRange(ramp)
    ensures InRange(t.ramp)
    ensures t.ramp == (ramp + Increment(ramp, transition)) % RxRampLen
    ensures t.sample <==> t.ramp < ramp
  {
    var next := ramp + Increment(ramp, transition);
    if next >= RxRampLen then Tick(next - RxRampLen, true) else Tick(next, false)
  }

  /**
   * The sum formed before the wrap is at most 159 + 29 = 188, so it would
   * fit an 8-bit register.
   */
  lemma StepFitsInByte(ramp: int, transition: bool)
    requires InRange(ramp)
    ensures ramp + Increment(ramp, transition) <= RxRampLen - 1 + RampIncAdvance
    ensures ramp + Increment(ramp, transition) < 256
  {
  }

  /**
   * A transition moves the next ramp value by exactly the adjustment from
   * where it would have been without one: back before the transition point,
   * forward from it on.
   */
  lemma TransitionShiftsPhase(ramp: int)
    requires InRange(ramp)
    ensures ramp < RampTransition ==>
      Step(ramp, true).ramp == (Step(ramp, false).ramp - RampAdjust) % RxRampLen
    ensures ramp >= RampTransition ==>
      Step(ramp, true).ramp == (Step(ramp, false).ramp + RampAdjust) % RxRampLen
  {
  }

  /**
   * Over one bit period that starts with a transition, the ramp moves 9 from
   * where a transition-free period would leave it: the next transition, one
   * bit later, is seen at ramp - 9 if this one was seen before 80, and at
   * ramp + 9 (mod 160) otherwise.
   */
  lemma EdgeLock(ramp: int)
    requires InRange(ramp)
    ensures ramp < RampTransition ==>
      Run(ramp, [true] + Quiet(RxSamplesPerBit - 1)).ramp == (ramp - RampAdjust) % RxRampLen
    ensures ramp >= RampTransition ==>
      Run(ramp, [true] + Quiet(RxSamplesPerBit - 1)).ramp == (ramp + RampAdjust) % RxRampLen
  {
    var q := Quiet(RxSamplesPerBit - 1);
    var t := Step(ramp, true);
    assert Run(ramp, [true]).ramp == t.ramp by {
      assert [true][1..] == [];
    }
    RunAppend(ramp, [true], q);
    QuietRun(t.ramp, RxSamplesPerBit - 1);
    EdgeLockArith(ramp, t.ramp);
  }

  /** The modular arithmetic behind `EdgeLock`. */
  lemma EdgeLockArith(ramp: int, next: int)
    requires InRange(ramp) && next == (ramp + Increment(ramp, true)) % RxRampLen
    ensures ramp < RampTransition ==>
      (next + RampInc * (RxSamplesPerBit - 1)) % RxRampLen == (ramp - RampAdjust) % RxRampLen
    ensures ramp >= RampTransition ==>
      (next + RampInc * (RxSamplesPerBit - 1)) % RxRampLen == (ramp + RampAdjust) % RxRampLen
  {
    assert RampInc * (RxSamplesPerBit - 1) == 140;
  }

  /** The ramp after a run of samples, and how many bits were sampled on the way. */
  datatype RunResult = RunResult(ramp: int, bits: nat)

  /** Steps the ramp once per transition flag, counting the wraps. */
  function Run(ramp: int, transitions: seq<bool>): (r: RunResult)
    requires InRange(ramp)
    ensures InRange(r.ramp)
    ensures r.bits <= |transitions|
    decreases |transitions|
  {
    if transitions == [] then RunResult(ramp, 0)
    else
      var t := Step(ramp, transitions[0]);
      var rest := Run(t.ramp, transitions[1..]);
      RunResult(rest.ramp, rest.bits + (if t.sample then 1 else 0))
  }

  /** The total amount the ramp is advanced over a run, before any wrap. */
  function Advance(ramp: int, transitions: seq<bool>): (total: nat)
    requires InRange(ramp)
    decreases |transitions|
  {
    if transitions == [] then 0
    else Increment(ramp, transitions[0]) + Advance(Step(ramp, transitions[0]).ramp, transitions[1..])
  }

  /** A run of n samples with no transition on the line. */
  function Quiet(n: nat): (s: seq<bool>)
  {
    seq(n, _ => false)
  }

  /** Every wrap takes away exactly one ramp length of the total advance. */
  lemma {:induction false} RunBalance(ramp: int, transitions: seq<bool>)
    requires InRange(ramp)
    ensures ramp + Advance(ramp, transitions)
         == Run(ramp, transitions).ramp + RxRampLen * Run(ramp, transitions).bits
    decreases |transitions|
  {
    if transitions != [] {
      RunBalance(Step(ramp, transitions[0]).ramp, transitions[1..]);
    }
  }

  /**
   * Each sample advances the ramp by 11 to 29, and by exactly 20 when there
   * is no transition at all.
   */
  lemma {:induction false} AdvanceBounds(ramp: int, transitions: seq<bool>)
    requires InRange(ramp)
    ensures RampIncRetard * |transitions| <= Advance(ramp, transitions)
    ensures Advance(ramp, transitions) <= RampIncAdvance * |transitions|
    ensures (forall i :: 0 <= i < |transitions| ==> !transitions[i]) ==>
      Advance(ramp, transitions) == RampInc * |transitions|
    decreases |transitions|
  {
    if transitions != [] {
      var rest := transitions[1..];
      AdvanceBounds(Step(ramp, transitions[0]).ramp, rest);
      assert forall i :: 0 <= i < |rest| ==> rest[i] == transitions[i + 1];
      MulSucc(RampIncRetard, |rest|);
      MulSucc(RampIncAdvance, |rest|);
      MulSucc(RampInc, |rest|);
    }
  }

  /**
   * With no transitions the ramp advances by the nominal increment, so after
   * n samples it sits at (ramp + 20n) mod 160 and (ramp + 20n) div 160 bits
   * have been sampled.
   */
  lemma QuietRun(ramp: int, n: nat)
    requires InRange(ramp)
    ensures Run(ramp, Quiet(n)).ramp == (ramp + RampInc * n) % RxRampLen
    ensures Run(ramp, Quiet(n)).bits == (ramp + RampInc * n) / RxRampLen
  {
    RunBalance(ramp, Quiet(n));
    AdvanceBounds(ramp, Quiet(n));
    var r := Run(ramp, Quiet(n));
    DivModUnique(ramp + RampInc * n, r.ramp, r.bits);
  }

  /**
   * With no transitions, every 8 samples bring the ramp back to where it was
   * and sample exactly one bit: one bit per VW_RX_SAMPLES_PER_BIT samples.
   */
  lemma {:induction false} QuietBitPeriod(ramp: int, bits: nat)
    requires InRange(ramp)
    ensures Run(ramp, Quiet(RxSamplesPerBit * bits)) == RunResult(ramp, bits)
    decreases bits
  {
    if bits > 0 {
      var n := RxSamplesPerBit * (bits - 1);
      assert Quiet(n + RxSamplesPerBit) == Quiet(n) + Quiet(RxSamplesPerBit);
      QuietBitPeriod(ramp, bits - 1);
      RunAppend(ramp, Quiet(n), Quiet(RxSamplesPerBit));
      QuietRun(ramp, RxSamplesPerBit);
    }
  }

  /**
   * Whatever the transitions, the number of bits sampled in n samples lies
   * between what steady retarding and steady advancing would give: the
   * correction range of the loop.
   */
  lemma SampleRateBounds(ramp: int, transitions: seq<bool>)
    requires InRange(ramp)
    ensures RxRampLen * Run(ramp, transitions).bits <= ramp + RampIncAdvance * |transitions|
    ensures ramp + RampIncRetard * |transitions| < RxRampLen * (Run(ramp, transitions).bits + 1)
  {
    RunBalance(ramp, transitions);
    AdvanceBounds(ramp, transitions);
  }

  /** A run over two consecutive stretches of samples is the second continued from the first. */
  lemma {:induction false} RunAppend(ramp: int, a: seq<bool>, b: seq<bool>)
    requires InRange(ramp)
    ensures Run(ramp, a + b).ramp == Run(Run(ramp, a).ramp, b).ramp
    ensures Run(ramp, a + b).bits == Run(ramp, a).bits + Run(Run(ramp, a).ramp, b).bits
    decreases |a|
  {
    if a == [] {
      assert a + b == b;
    } else {
      assert (a + b)[0] == a[0];
      assert (a + b)[1..] == a[1..] + b;
      RunAppend(Step(ramp, a[0]).ramp, a[1..], b);
    }
  }

  /** One more sample adds one more increment to a product. */
  lemma MulSucc(c: nat, n: nat)
    ensures c * (n + 1) == c * n + c
  {
  }

  /** x splits into quotient and remainder by the ramp length in one way only. */
  lemma DivModUnique(x: int, rem: int, quot: int)
    requires 0 <= rem < RxRampLen && x == rem + RxRampLen * quot
    ensures rem == x % RxRampLen && quot == x / RxRampLen
  {
  }
}
