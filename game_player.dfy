/**
 * The older player class (`src/game/Player.ts`), without observers or
 * commands: `handleInput` resolves both axes at once, `update` bobs while
 * moving and issues the moves. Here the initial position has no eye offset.
 */
module GamePlayer {
  import opened Geometry
  import opened Input
  import opened Movement

  class Player {
    const input: KeyboardPlayerInput
    const initialPosition: Vec3
    const swingStep: real
    var position: Vec3
    var velocity: Vec3
    var swingAngle: real
    var output: seq<Output>

    ghost predicate Valid()
      reads this, input
    {
      input.Valid() && IsStep(velocity.x) && IsStep(velocity.z) && velocity.y == 0.0 && swingStep == 0.15
    }

    /** Position and initial position are the given point; velocity and swing angle start at 0. */
    constructor (initial: Vec3, input: KeyboardPlayerInput)
      requires input.Valid()
      ensures Valid() && this.input == input
      ensures initialPosition == initial && position == initial
      ensures velocity == Vec3(0.0, 0.0, 0.0) && swingAngle == 0.0 && output == []
    {
      this.input := input;
      initialPosition := Vec3(initial.x, initial.y, initial.z);
      position := Vec3(initial.x, initial.y, initial.z);
      velocity := Vec3(0.0, 0.0, 0.0);
      swingStep := 0.15;
      swingAngle := 0.0;
      output := [];
    }

    /** `isMoving`: some horizontal velocity component is non-zero; as velocity never has a y part, the player is moving exactly when its velocity is not zero. */
    predicate IsMoving()
      reads this
      ensures velocity.y == 0.0 ==> (IsMoving() <==> velocity != Vec3(0.0, 0.0, 0.0))
    {
      velocity.x != 0.0 || velocity.z != 0.0
    }

    /** `handleInput`: `velocity.z` from up/down, then `velocity.x` from left/right. */
    method HandleInput()
      requires Valid()
      modifies this
      ensures Valid() && velocity == Vec3(LeftRight(input.buttons), 0.0, ForwardBackward(input.buttons))
      ensures IsMoving() <==> input.buttons[Up].pressed || input.buttons[Down].pressed || input.buttons[Left].pressed || input.buttons[Right].pressed
      ensures position == old(position) && swingAngle == old(swingAngle) && output == old(output)
    {
      if input.buttons[Up].pressed || input.buttons[Down].pressed {
        if input.buttons[Down].time > input.buttons[Up].time {
          velocity := velocity.(z := -0.25);
        } else {
          velocity := velocity.(z := 0.25);
        }
      } else {
        velocity := velocity.(z := 0.0);
      }

      if input.buttons[Left].pressed || input.buttons[Right].pressed {
        if input.buttons[Left].time > input.buttons[Right].time {
          velocity := velocity.(x := -0.25);
        } else {
          velocity := velocity.(x := 0.25);
        }
      } else {
        velocity := velocity.(x := 0.0);
      }
      MovingIffButtonHeld(input.buttons);
    }

    /** `calculateYPositionForSwing`: only while moving, advance the angle and bob `position.y`. */
    method CalculateYPositionForSwing(trig: Trig)
      requires Valid()
      modifies this
      ensures Valid() && velocity == old(velocity) && output == old(output)
      ensures old(IsMoving()) ==> (swingAngle == old(swingAngle) + 0.15 &&
        position == old(position).(y := initialPosition.y + trig.sin(swingAngle) / 4.0))
      ensures !old(IsMoving()) ==> swingAngle == old(swingAngle) && position == old(position)
    {
      if IsMoving() {
        swingAngle := swingAngle + swingStep;
        position := position.(y := initialPosition.y + trig.sin(swingAngle) / 4.0);
      }
    }

    /** `update`: bob if moving, then `moveRight(velocity.x)`, `moveForward(velocity.z)`, camera y. */
    method Update(dt: real, et: real, trig: Trig)
      requires Valid()
      modifies this
      ensures Valid() && velocity == old(velocity)
      ensures old(IsMoving()) ==> (swingAngle == old(swingAngle) + 0.15 &&
        position == old(position).(y := initialPosition.y + trig.sin(swingAngle) / 4.0))
      ensures !old(IsMoving()) ==> swingAngle == old(swingAngle) && position == old(position)
      ensures output == old(output) + [MoveRight(velocity.x), MoveForward(velocity.z), SetCameraY(position.y)]
    {
      CalculateYPositionForSwing(trig);
      UpdatePosition();
    }

    /** `updatePosition`: `moveRight(velocity.x)`, `moveForward(velocity.z)`, camera y := `position.y`. */
    method UpdatePosition()
      requires Valid()
      modifies this
      ensures Valid() && velocity == old(velocity) && position == old(position) && swingAngle == old(swingAngle)
      ensures output == old(output) + [MoveRight(velocity.x), MoveForward(velocity.z), SetCameraY(position.y)]
    {
      output := output + [MoveRight(velocity.x), MoveForward(velocity.z), SetCameraY(position.y)];
    }
  }
}
