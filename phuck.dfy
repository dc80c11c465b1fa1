/**
 * The enemy actor (`Phuck.ts`): stores its orbit and stats, creates the three
 * state objects and starts in the live one, places its mesh on the orbit at the
 * initial angle, and delegates `update` to the current state. The hit test
 * sets `is_on_target` from the camera ray's intersections with the mesh; the
 * raycaster is the parameter `raycast`, giving the number of intersections
 * for the mesh at a position.
 */
module Phucks {
  import opened Geometry
  import opened Actors
  import opened PhuckStates

  /** The keys of the state map. */
  const STATE_NAMES: set<string> := {"idle", "live", "falling"}

  /**
   * What one `Phuck.Update` leaves behind, given the enemy's fields before it:
   * the same state, the mesh stepped by that state, the live state's rotation,
   * the hit test only when live and shooting, and the other fields unchanged.
   */
  ghost predicate Stepped(p: Phuck, position: Vec3, rotationY: real, isOnTarget: bool, rotation: real,
                          playerIsShooting: bool, state: PhuckState, et: real, trig: Trig, raycast: Vec3 -> nat)
    reads p, p.mesh
  {
    && p.state == state
    && p.mesh.position == StepPosition(state, position, p.OrbitOf(), et, trig)
    && (state == Live ==> p.mesh.rotationY == trig.atan2(p.mesh.position.x, p.mesh.position.z))
    && (state != Live ==> p.mesh.rotationY == rotationY)
    && (state == Live && playerIsShooting ==> (p.isOnTarget <==> raycast(p.mesh.position) != 0))
    && (!(state == Live && playerIsShooting) ==> p.isOnTarget == isOnTarget)
    && p.rotation == rotation && p.playerIsShooting == playerIsShooting
  }

  class Phuck {
    const actor: Actor
    const mesh: Mesh
    const center: Vec3
    const radius: real
    const initialAngle: real
    const health: real
    const hitDamage: real
    var rotation: real
    var isOnTarget: bool
    /** `player_is_shooting`: read by the live state, but never declared or assigned, so never true. */
    var playerIsShooting: bool
    var states: map<string, PhuckState>
    var state: PhuckState

    ghost predicate Valid()
      reads this
    {
      && states == map["idle" := Idle, "live" := Live, "falling" := Falling]
      && state in states.Values
    }

    function OrbitOf(): Orbit
    {
      Orbit(center, radius, initialAngle)
    }

    /**
     * Stores the arguments, sets rotation 0, creates mesh and states (the
     * current one is live), and places the mesh on the orbit at `initial_angle`
     * at the height of the center.
     */
    constructor (center: Vec3, radius: real, initialAngle: real, health: real, hitDamage: real, trig: Trig)
      ensures Valid() && fresh(actor) && fresh(mesh) && actor.observers == []
      ensures this.center == center && this.radius == radius && this.initialAngle == initialAngle
      ensures this.health == health && this.hitDamage == hitDamage && rotation == 0.0
      ensures states.Keys == STATE_NAMES && state == states["live"] && state == Live
      ensures mesh.position == Vec3(center.x + trig.cos(initialAngle) * radius, center.y, center.z + trig.sin(initialAngle) * radius)
      ensures !playerIsShooting
    {
      actor := new Actor();
      this.center := center;
      this.radius := radius;
      this.initialAngle := initialAngle;
      this.health := health;
      this.hitDamage := hitDamage;
      rotation := 0.0;
      isOnTarget := false;
      playerIsShooting := false;
      // createMesh
      var m := new Mesh();
      // createStates
      var created := map["idle" := Idle, "live" := Live, "falling" := Falling];
      states := created;
      state := created["live"];
      // setInitialPosition
      m.position := Vec3(center.x + trig.cos(initialAngle) * radius, center.y, center.z + trig.sin(initialAngle) * radius);
      mesh := m;
    }

    /** `isOnPlayersTarget`: on target exactly when the ray meets the mesh at least once. */
    method IsOnPlayersTarget(raycast: Vec3 -> nat)
      modifies this
      ensures isOnTarget <==> raycast(mesh.position) != 0
      ensures states == old(states) && state == old(state) && rotation == old(rotation) && playerIsShooting == old(playerIsShooting)
    {
      var intersect := raycast(mesh.position);
      if intersect != 0 {
        isOnTarget := true;
      } else {
        isOnTarget := false;
      }
    }

    /**
     * `update`: the current state's `update` with the same `dt` and `et`, and
     * nothing else: the state is never changed, and the hit test runs only in
     * the live state with the shooting flag true.
     */
    method Update(dt: real, et: real, trig: Trig, raycast: Vec3 -> nat)
      requires Valid()
      modifies this, mesh
      ensures Valid() && state == old(state)
      ensures mesh.position == StepPosition(state, old(mesh.position), OrbitOf(), et, trig)
      ensures state == Live ==> mesh.rotationY == trig.atan2(mesh.position.x, mesh.position.z)
      ensures state != Live ==> mesh.rotationY == old(mesh.rotationY)
      ensures state == Live && playerIsShooting ==> (isOnTarget <==> raycast(mesh.position) != 0)
      ensures !(state == Live && playerIsShooting) ==> isOnTarget == old(isOnTarget)
      ensures rotation == old(rotation) && playerIsShooting == old(playerIsShooting)
      ensures Stepped(this, old(mesh.position), old(mesh.rotationY), old(isOnTarget), old(rotation), old(playerIsShooting), old(state), et, trig, raycast)
    {
      var runHitTest := PhuckStates.Update(state, mesh, OrbitOf(), playerIsShooting, dt, et, trig);
      if runHitTest {
        IsOnPlayersTarget(raycast);
      }
    }
  }
}
