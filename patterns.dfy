/**
 * The two animated LED patterns of the tree, as pure functions of the
 * pattern position ("shift").
 *
 * Duty values are inverted: 0 lights an LED fully, 255 turns it off, and
 * the dim level lies in between. Both patterns slide the three-wide
 * template [dim, on, dim] over the channels; the Larson scanner bounces
 * over 7 channels, the spinner rotates around 12.
 */
module Patterns {

  /** Inverted duty levels. */
  const ON: int := 0
  const LARSON_DIM: int := 220
  const SPIN_DIM: int := 225
  const OFF: int := 255

  const PATTERN_WIDTH: int := 3

  const LARSON_LEDS: int := 7
  /** Largest Larson shift: the template's last cell sits on the last channel. */
  const LARSON_SHIFT_MAX: int := LARSON_LEDS + 1 - PATTERN_WIDTH
  /** Shift the Larson scanner starts from: the template's first cell is off the left end. */
  const LARSON_SHIFT_START: int := -1

  const SPIN_LEDS: int := 12
  const SPIN_SHIFT_MAX: int := SPIN_LEDS
  const SPIN_SHIFT_START: int := 0

  function LarsonTemplate(): seq<int> { [LARSON_DIM, ON, LARSON_DIM] }
  function SpinTemplate(): seq<int> { [SPIN_DIM, ON, SPIN_DIM] }

  // ---------------------------------------------------------------- Larson scanner

  /** Duty written to channel `i` of the Larson scanner at `shift`. */
  function LarsonDuty(shift: int, i: int): int
  {
    var k := i - shift;
    if k < 0 || k >= PATTERN_WIDTH then OFF else LarsonTemplate()[k]
  }

  /** The 7 duty values written by one Larson render. */
  function LarsonFrame(shift: int): (f: seq<int>)
    ensures |f| == LARSON_LEDS
    ensures forall i :: 0 <= i < LARSON_LEDS ==> f[i] == LarsonDuty(shift, i)
  {
    seq(LARSON_LEDS, i => LarsonDuty(shift, i))
  }

  /** Direction-aware move of the Larson shift after a render: one step, turning at either end. */
  function LarsonStep(shift: int, right: bool): (r: (int, bool))
    ensures r.0 == shift + 1 || r.0 == shift - 1
    ensures r.1 <==> r.0 == shift + 1
  {
    if right then
      if shift < LARSON_SHIFT_MAX then (shift + 1, true) else (shift - 1, false)
    else
      if shift > LARSON_SHIFT_START then (shift - 1, false) else (shift + 1, true)
  }

  predicate LarsonInRange(shift: int)
  {
    LARSON_SHIFT_START <= shift <= LARSON_SHIFT_MAX
  }

  /** Every Larson render lights exactly one channel fully (the one at shift + 1) and dims its in-range neighbours. */
  lemma LarsonLitChannel(shift: int)
    requires LarsonInRange(shift)
    ensures forall i :: 0 <= i < LARSON_LEDS ==> (LarsonFrame(shift)[i] == ON <==> i == shift + 1)
    ensures forall i :: 0 <= i < LARSON_LEDS ==>
      (LarsonFrame(shift)[i] == LARSON_DIM <==> i == shift || i == shift + 2)
    ensures forall i :: 0 <= i < LARSON_LEDS ==>
      (LarsonFrame(shift)[i] == OFF <==> i < shift || i > shift + 2)
  {
  }

  /** A step from an in-range shift stays in range, and moves by exactly one. */
  lemma LarsonStepInRange(shift: int, right: bool)
    requires LarsonInRange(shift)
    ensures LarsonInRange(LarsonStep(shift, right).0)
    ensures LarsonStep(shift, right).0 == shift + 1 || LarsonStep(shift, right).0 == shift - 1
  {
  }

  /** The Larson (shift, direction) after `k` renders from the start position. */
  function LarsonAfter(k: nat): (int, bool)
  {
    if k == 0 then (LARSON_SHIFT_START, true) else
      var prev := LarsonAfter(k - 1);
      LarsonStep(prev.0, prev.1)
  }

  /** The bouncing shift sequence -1, 0, 1, 2, 3, 4, 5, 4, 3, 2, 1, 0, -1, 0, ... as a closed form. */
  function Bounce(k: nat): (s: int)
    ensures LarsonInRange(s)
  {
    var m := k % 12;
    if m <= 6 then m - 1 else 11 - m
  }

  /**
   * After k renders the Larson shift is Bounce(k): the scanner runs right
   * from -1 to 5 and back, turning at each end without repeating it; it
   * moves right exactly in the first half of each period of 12.
   */
  lemma {:induction false} LarsonOrbit(k: nat)
    ensures LarsonAfter(k).0 == Bounce(k)
    ensures LarsonAfter(k).1 == (k == 0 || 1 <= k % 12 <= 6)
  {
    if k > 0 {
      LarsonOrbit(k - 1);
      BounceNext(k - 1);
    }
  }

  /** One step from position j of the closed form lands on position j + 1, with the direction of its half period. */
  lemma BounceNext(j: nat)
    ensures LarsonStep(Bounce(j), j == 0 || 1 <= j % 12 <= 6) == (Bounce(j + 1), 1 <= (j + 1) % 12 <= 6)
  {
    var m := j % 12;
    assert (j + 1) % 12 == if m == 11 then 0 else m + 1;
  }

  /** The shift stays in [-1, 5] forever. */
  lemma LarsonAlwaysInRange(k: nat)
    ensures LarsonInRange(LarsonAfter(k).0)
  {
    LarsonOrbit(k);
  }

  // ---------------------------------------------------------------- spinner

  /**
   * Index into the template for channel `i` at `shift`: a negative offset
   * wraps once by the ring size. A still-negative index compares as a huge
   * unsigned value, which is what the caller's range test sees as "off".
   */
  function SpinIndex(shift: int, i: int): (k: int)
    ensures 0 <= shift <= SPIN_SHIFT_MAX && 0 <= i < SPIN_LEDS ==> 0 <= k < SPIN_LEDS
  {
    var k := i - shift;
    if k < 0 then k + SPIN_LEDS else k
  }

  /** Duty written to channel `i` of the spinner at `shift`. */
  function SpinDuty(shift: int, i: int): int
  {
    var k := SpinIndex(shift, i);
    if k < 0 || k >= PATTERN_WIDTH then OFF else SpinTemplate()[k]
  }

  /** The 12 duty values written by one spinner render. */
  function SpinFrame(shift: int): (f: seq<int>)
    ensures |f| == SPIN_LEDS
    ensures forall i :: 0 <= i < SPIN_LEDS ==> f[i] == SpinDuty(shift, i)
  {
    seq(SPIN_LEDS, i => SpinDuty(shift, i))
  }

  /** Move of the spinner shift after a render: up to 12, then back to 1. */
  function SpinStep(shift: int): (r: int)
    ensures shift >= 0 ==> 1 <= r
    ensures shift < SPIN_SHIFT_MAX ==> r == shift + 1
  {
    if shift < SPIN_SHIFT_MAX then shift + 1 else 1
  }

  predicate SpinInRange(shift: int)
  {
    0 <= shift <= SPIN_SHIFT_MAX
  }

  lemma SpinStepInRange(shift: int)
    requires SpinInRange(shift)
    ensures SpinInRange(SpinStep(shift)) && SpinStep(shift) != 0
  {
  }

  /**
   * The spinner frame, stated on the ring: channels shift, shift+1 and
   * shift+2 (modulo 12) show dim, on, dim; every other channel is off.
   */
  lemma SpinFrameOnRing(shift: int, i: int)
    requires SpinInRange(shift) && 0 <= i < SPIN_LEDS
    ensures SpinFrame(shift)[i] ==
      if i == shift % SPIN_LEDS then SPIN_DIM
      else if i == (shift + 1) % SPIN_LEDS then ON
      else if i == (shift + 2) % SPIN_LEDS then SPIN_DIM
      else OFF
  {
    var k := SpinIndex(shift, i);
    assert k == (i - shift) % SPIN_LEDS;
  }

  /** Shift 12 draws the same picture as shift 0. */
  lemma SpinTwelveIsZero()
    ensures SpinFrame(SPIN_SHIFT_MAX) == SpinFrame(0)
  {
    forall i | 0 <= i < SPIN_LEDS
      ensures SpinFrame(SPIN_SHIFT_MAX)[i] == SpinFrame(0)[i]
    {
      SpinFrameOnRing(SPIN_SHIFT_MAX, i);
      SpinFrameOnRing(0, i);
    }
  }

  /** The spinner shift after `k` renders from the start position. */
  function SpinAfter(k: nat): int
  {
    if k == 0 then SPIN_SHIFT_START else SpinStep(SpinAfter(k - 1))
  }

  /** The spinner shift runs 0, 1, ..., 12, 1, 2, ..., 12, 1, ... */
  lemma {:induction false} SpinOrbit(k: nat)
    ensures SpinAfter(k) == if k == 0 then 0 else (k - 1) % 12 + 1
  {
    if k > 0 {
      SpinOrbit(k - 1);
      if k > 1 {
        var m := (k - 2) % 12;
        assert (k - 1) % 12 == if m == 11 then 0 else m + 1;
      }
    }
  }

  /** The picture drawn at render k is the template placed at k modulo 12. */
  lemma SpinRenderedAt(k: nat)
    ensures SpinFrame(SpinAfter(k)) == SpinFrame(k % SPIN_LEDS)
  {
    SpinOrbit(k);
    if k > 0 && k % SPIN_LEDS == 0 {
      assert (k - 1) % 12 == 11;
      SpinTwelveIsZero();
    } else if k > 0 {
      assert (k - 1) % 12 + 1 == k % 12;
    }
  }
}
