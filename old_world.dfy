/**
 * The old single-file world script (`old/world-old-whole.js`): four buttons
 * bound to the fixed codes KeyW, KeyS, KeyA and KeyD, velocity resolution that
 * stores the forward axis in `velocity.y` of a two-component vector, and a
 * swing that is driven by held buttons rather than by velocity.
 * `Constants.PLAYER_POS_Y` is the constructor parameter `playerPosY`.
 */
module OldWorld {
  import opened Wrappers
  import opened Geometry
  import opened Input
  import opened Movement

  const FOUR_BUTTONS: set<Button> := {Up, Down, Left, Right}

  /** The cases of both keyboard listeners, in order. */
  const OLD_CASES: seq<(string, Button)> := [("KeyW", Up), ("KeyS", Down), ("KeyA", Left), ("KeyD", Right)]

  /** Looking a code up in the four cases is the listeners' `if`-chain; any other code matches nothing. */
  lemma OldCasesInOrder(code: string)
    ensures Lookup(OLD_CASES, code) ==
      if code == "KeyW" then Some(Up)
      else if code == "KeyS" then Some(Down)
      else if code == "KeyA" then Some(Left)
      else if code == "KeyD" then Some(Right)
      else None
  {
    if code == "KeyW" { LookupFirst(OLD_CASES, code, 0); }
    else if code == "KeyS" { LookupFirst(OLD_CASES, code, 1); }
    else if code == "KeyA" { LookupFirst(OLD_CASES, code, 2); }
    else if code == "KeyD" { LookupFirst(OLD_CASES, code, 3); }
  }

  /** `entities.player`: swing step and angle, and velocity (x: left/right, y: backward/forward). */
  datatype PlayerEntity = PlayerEntity(swingStep: real, swingAngle: real, velocity: Vec2)

  class World {
    const playerPosY: real
    var buttonsPressed: Buttons
    var player: PlayerEntity
    var output: seq<Output>

    ghost predicate Valid()
      reads this
    {
      && buttonsPressed.Keys == FOUR_BUTTONS && ReleasedAtZero(buttonsPressed)
      && IsStep(player.velocity.x) && IsStep(player.velocity.y) && player.swingStep == 0.15
    }

    /** `setProps` and `createPlayer`: four released buttons; swing step 0.15, angle 0, velocity (0, 0). */
    constructor (playerPosY: real)
      ensures Valid() && this.playerPosY == playerPosY
      ensures forall b :: b in buttonsPressed ==> buttonsPressed[b] == RELEASED
      ensures player == PlayerEntity(0.15, 0.0, Vec2(0.0, 0.0)) && output == []
    {
      this.playerPosY := playerPosY;
      buttonsPressed := map[Up := RELEASED, Down := RELEASED, Left := RELEASED, Right := RELEASED];
      player := PlayerEntity(0.15, 0.0, Vec2(0.0, 0.0));
      output := [];
    }

    /** The `keydown` listener: KeyW, KeyS, KeyA or KeyD presses its button at time `now`. */
    method KeyDown(code: string, now: real)
      requires Valid()
      modifies this
      ensures Valid() && player == old(player) && output == old(output)
      ensures match Lookup(OLD_CASES, code)
        case None => buttonsPressed == old(buttonsPressed)
        case Some(b) => buttonsPressed == old(buttonsPressed)[b := ButtonState(now, true)]
    {
      OldCasesInOrder(code);
      PressReleaseKeep(buttonsPressed, Up, now);
      PressReleaseKeep(buttonsPressed, Down, now);
      PressReleaseKeep(buttonsPressed, Left, now);
      PressReleaseKeep(buttonsPressed, Right, now);
      if code == "KeyW" {
        buttonsPressed := buttonsPressed[Up := ButtonState(now, true)];
      } else if code == "KeyS" {
        buttonsPressed := buttonsPressed[Down := ButtonState(now, true)];
      } else if code == "KeyA" {
        buttonsPressed := buttonsPressed[Left := ButtonState(now, true)];
      } else if code == "KeyD" {
        buttonsPressed := buttonsPressed[Right := ButtonState(now, true)];
      }
    }

    /** The `keyup` listener: KeyW, KeyS, KeyA or KeyD releases its button with time 0. */
    method KeyUp(code: string)
      requires Valid()
      modifies this
      ensures Valid() && player == old(player) && output == old(output)
      ensures match Lookup(OLD_CASES, code)
        case None => buttonsPressed == old(buttonsPressed)
        case Some(b) => buttonsPressed == old(buttonsPressed)[b := RELEASED]
    {
      OldCasesInOrder(code);
      PressReleaseKeep(buttonsPressed, Up, 0.0);
      PressReleaseKeep(buttonsPressed, Down, 0.0);
      PressReleaseKeep(buttonsPressed, Left, 0.0);
      PressReleaseKeep(buttonsPressed, Right, 0.0);
      if code == "KeyW" {
        buttonsPressed := buttonsPressed[Up := RELEASED];
      } else if code == "KeyS" {
        buttonsPressed := buttonsPressed[Down := RELEASED];
      } else if code == "KeyA" {
        buttonsPressed := buttonsPressed[Left := RELEASED];
      } else if code == "KeyD" {
        buttonsPressed := buttonsPressed[Right := RELEASED];
      }
    }

    /** `isPlayerMoving`: some movement button is held, which is exactly when the resolved velocity is not zero. */
    predicate IsPlayerMoving()
      reads this
      requires HasMovementButtons(buttonsPressed)
      ensures IsPlayerMoving() <==> LeftRight(buttonsPressed) != 0.0 || ForwardBackward(buttonsPressed) != 0.0
    {
      buttonsPressed[Up].pressed || buttonsPressed[Down].pressed || buttonsPressed[Left].pressed || buttonsPressed[Right].pressed
    }

    /** `handleInput`: resolve both axes, then `moveRight(velocity.x)` and `moveForward(velocity.y)`. */
    method HandleInput(dt: real, elapsedTime: real)
      requires Valid()
      modifies this
      ensures Valid() && buttonsPressed == old(buttonsPressed)
      ensures player == old(player).(velocity := Vec2(LeftRight(buttonsPressed), ForwardBackward(buttonsPressed)))
      ensures output == old(output) + [MoveRight(player.velocity.x), MoveForward(player.velocity.y)]
      ensures player.velocity != Vec2(0.0, 0.0) <==> IsPlayerMoving()
    {
      if buttonsPressed[Up].pressed || buttonsPressed[Down].pressed {
        if buttonsPressed[Down].time > buttonsPressed[Up].time {
          player := player.(velocity := player.velocity.(y := -0.25));
        } else {
          player := player.(velocity := player.velocity.(y := 0.25));
        }
      } else {
        player := player.(velocity := player.velocity.(y := 0.0));
      }

      if buttonsPressed[Left].pressed || buttonsPressed[Right].pressed {
        if buttonsPressed[Left].time > buttonsPressed[Right].time {
          player := player.(velocity := player.velocity.(x := -0.25));
        } else {
          player := player.(velocity := player.velocity.(x := 0.25));
        }
      } else {
        player := player.(velocity := player.velocity.(x := 0.0));
      }

      output := output + [MoveRight(player.velocity.x), MoveForward(player.velocity.y)];
      MovingIffButtonHeld(buttonsPressed);
    }

    /** `updatePlayerSwing`: only while a button is held, advance the angle and set the camera's y. */
    method UpdatePlayerSwing(dt: real, trig: Trig)
      requires Valid()
      modifies this
      ensures Valid() && buttonsPressed == old(buttonsPressed) && player.velocity == old(player.velocity)
      ensures old(IsPlayerMoving()) ==> (player.swingAngle == old(player.swingAngle) + 0.15 &&
        output == old(output) + [SetCameraY(playerPosY + trig.sin(player.swingAngle) / 4.0)])
      ensures !old(IsPlayerMoving()) ==> player == old(player) && output == old(output)
    {
      if IsPlayerMoving() {
        player := player.(swingAngle := player.swingAngle + player.swingStep);
        output := output + [SetCameraY(playerPosY + trig.sin(player.swingAngle) / 4.0)];
      }
    }

    /** `update`: the swing. */
    method Update(dt: real, elapsedTime: real, trig: Trig)
      requires Valid()
      modifies this
      ensures Valid() && buttonsPressed == old(buttonsPressed) && player.velocity == old(player.velocity)
      ensures old(IsPlayerMoving()) ==> (player.swingAngle == old(player.swingAngle) + 0.15 &&
        output == old(output) + [SetCameraY(playerPosY + trig.sin(player.swingAngle) / 4.0)])
      ensures !old(IsPlayerMoving()) ==> player == old(player) && output == old(output)
    {
      UpdatePlayerSwing(dt, trig);
    }
  }
}
