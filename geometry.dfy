/**
 * The few three.js values the core reads and writes: vectors of exact reals
 * (the game's literal constants 0.25, 0.15, 0.05 are exact here, not IEEE
 * doubles), and the trigonometry it calls, passed in as uninterpreted functions.
 */
module Geometry {

  datatype Vec3 = Vec3(x: real, y: real, z: real)

  datatype Vec2 = Vec2(x: real, y: real)

  /** `Math.sin`, `Math.cos`, `Math.atan2` and `MathUtils.degToRad`, with nothing known about them. */
  datatype Trig = Trig(sin: real -> real, cos: real -> real, atan2: (real, real) -> real, degToRad: real -> real)

  /** The mesh of an actor: the position and y-rotation that the enemy states write in place. */
  class Mesh {
    var position: Vec3
    var rotationY: real

    constructor ()
      ensures position == Vec3(0.0, 0.0, 0.0) && rotationY == 0.0
    {
      position := Vec3(0.0, 0.0, 0.0);
      rotationY := 0.0;
    }
  }

  /**
   * One call the core issues to the outside: `controls.moveRight(d)`,
   * `controls.moveForward(d)`, or the assignment of the camera's y position.
   */
  datatype Output = MoveRight(distance: real) | MoveForward(distance: real) | SetCameraY(y: real)
}
