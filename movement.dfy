/**
 * Velocity resolution, written the same way in the player actor, the older
 * player class and the old world script: per axis, 0 when neither button is
 * held, otherwise STEP towards the negative direction when the negative
 * button's time is strictly greater, and towards the positive direction when
 * not, so equal times resolve to the positive direction.
 */
module Movement {
  import opened Input

  const STEP: real := 0.25

  predicate IsStep(v: real)
  {
    v == -STEP || v == 0.0 || v == STEP
  }

  /** One axis, from the button for its negative and the button for its positive direction. */
  function Axis(negative: ButtonState, positive: ButtonState): (v: real)
    ensures IsStep(v)
    ensures v == 0.0 <==> !negative.pressed && !positive.pressed
  {
    if positive.pressed || negative.pressed then
      if negative.time > positive.time then -STEP else STEP
    else 0.0
  }

  /** With both buttons held the later press wins, and a tie goes to the positive direction. */
  lemma LastPressedWins(negative: ButtonState, positive: ButtonState)
    requires negative.pressed && positive.pressed
    ensures negative.time > positive.time ==> Axis(negative, positive) == -STEP
    ensures negative.time < positive.time ==> Axis(negative, positive) == STEP
    ensures negative.time == positive.time ==> Axis(negative, positive) == STEP
    ensures negative.time != positive.time ==> Axis(positive, negative) == -Axis(negative, positive)
  {
  }

  /**
   * Held alone, a button moves towards its own direction, provided released
   * buttons carry time 0 and a press is stamped with a positive time.
   */
  lemma HeldAloneWins(negative: ButtonState, positive: ButtonState)
    requires !negative.pressed ==> negative.time == 0.0
    requires !positive.pressed ==> positive.time == 0.0
    requires negative.pressed ==> negative.time > 0.0
    requires positive.pressed ==> positive.time >= 0.0
    ensures negative.pressed && !positive.pressed ==> Axis(negative, positive) == -STEP
    ensures positive.pressed && !negative.pressed ==> Axis(negative, positive) == STEP
  {
  }

  /** The four movement buttons are present. */
  predicate HasMovementButtons(bs: Buttons)
  {
    Up in bs && Down in bs && Left in bs && Right in bs
  }

  /** `velocity.z` (forward +, backward -): backward only when Down was pressed later than Up. */
  function ForwardBackward(bs: Buttons): (v: real)
    requires HasMovementButtons(bs)
    ensures IsStep(v)
    ensures v == 0.0 <==> !bs[Up].pressed && !bs[Down].pressed
    ensures v == -STEP <==> (bs[Up].pressed || bs[Down].pressed) && bs[Down].time > bs[Up].time
  {
    Axis(bs[Down], bs[Up])
  }

  /** `velocity.x` (right +, left -): left only when Left was pressed later than Right. */
  function LeftRight(bs: Buttons): (v: real)
    requires HasMovementButtons(bs)
    ensures IsStep(v)
    ensures v == 0.0 <==> !bs[Left].pressed && !bs[Right].pressed
    ensures v == -STEP <==> (bs[Left].pressed || bs[Right].pressed) && bs[Left].time > bs[Right].time
  {
    Axis(bs[Left], bs[Right])
  }

  /** Held buttons (the old world's test) and non-zero resolved velocity (the players' test) agree. */
  lemma MovingIffButtonHeld(bs: Buttons)
    requires HasMovementButtons(bs)
    ensures (LeftRight(bs) != 0.0 || ForwardBackward(bs) != 0.0) <==>
      (bs[Up].pressed || bs[Down].pressed || bs[Left].pressed || bs[Right].pressed)
  {
  }
}
