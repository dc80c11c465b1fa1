/**
 * The enemy's behaviour states (`PhuckStates.ts`): the base state does
 * nothing, the live state flies the enemy round its orbit as a function of the
 * elapsed time `et` and, while the player is shooting, asks for a hit test, and
 * the falling state lerps the enemy 5% of the way down to the ground per tick.
 * No state changes the current state: there are no transitions.
 */
module PhuckStates {
  import opened Geometry

  /** The three state objects the enemy creates: `PhuckState`, `PhuckStateLive`, `PhuckStateFalling`. */
  datatype PhuckState = Idle | Live | Falling

  /** The enemy's fixed orbit: `center`, `radius`, `initial_angle`. */
  datatype Orbit = Orbit(center: Vec3, radius: real, initialAngle: real)

  const FALL_FACTOR: real := 0.05

  /** Where the live state puts the enemy at elapsed time `et`; `y` is left as it was. */
  function LivePosition(o: Orbit, et: real, trig: Trig, y: real): (r: Vec3)
    ensures r.y == y
    ensures OnUnitCircle(trig, o.initialAngle + et) ==> OnOrbit(r, o)
  {
    var c, sn := trig.cos(o.initialAngle + et), trig.sin(o.initialAngle + et);
    assert (c * o.radius) * (c * o.radius) + (sn * o.radius) * (sn * o.radius) == (c * c + sn * sn) * (o.radius * o.radius);
    Vec3(o.center.x + c * o.radius, y, o.center.z + sn * o.radius)
  }

  /** At elapsed time 0 the live position is the point of the orbit at its initial angle. */
  lemma LiveAtStart(o: Orbit, trig: Trig, y: real)
    ensures LivePosition(o, 0.0, trig, y) ==
      Vec3(o.center.x + trig.cos(o.initialAngle) * o.radius, y, o.center.z + trig.sin(o.initialAngle) * o.radius)
  {
    var a := o.initialAngle;
    var c, sn := trig.cos(a + 0.0), trig.sin(a + 0.0);
    assert c == trig.cos(a) && sn == trig.sin(a);
    assert LivePosition(o, 0.0, trig, y) == Vec3(o.center.x + c * o.radius, y, o.center.z + sn * o.radius);
  }

  /** `sin² + cos² = 1` holds of the given trigonometry at angle `a`. */
  predicate OnUnitCircle(trig: Trig, a: real)
  {
    trig.cos(a) * trig.cos(a) + trig.sin(a) * trig.sin(a) == 1.0
  }

  /** Seen from above, `p` lies on the circle of the orbit. */
  predicate OnOrbit(p: Vec3, o: Orbit)
  {
    (p.x - o.center.x) * (p.x - o.center.x) + (p.z - o.center.z) * (p.z - o.center.z) == o.radius * o.radius
  }

  /** `Vector3.lerp`: move `a` the fraction `t` of the way to `b`, component by component. */
  function Lerp(a: Vec3, b: Vec3, t: real): (r: Vec3)
    ensures t == 0.0 ==> r == a
    ensures t == 1.0 ==> r == b
    ensures 0.0 <= t <= 1.0 && a.y <= b.y ==> a.y <= r.y <= b.y
    ensures 0.0 <= t <= 1.0 && b.y <= a.y ==> b.y <= r.y <= a.y
  {
    Vec3(Mix(a.x, b.x, t), Mix(a.y, b.y, t), Mix(a.z, b.z, t))
  }

  /** One component of the lerp: `p + (q - p) * t`. */
  function Mix(p: real, q: real, t: real): (m: real)
    ensures t == 0.0 ==> m == p
    ensures t == 1.0 ==> m == q
    ensures 0.0 <= t <= 1.0 && p <= q ==> p <= m <= q
    ensures 0.0 <= t <= 1.0 && q <= p ==> q <= m <= p
  {
    var d := q - p;
    Scaled(d, t);
    p + d * t
  }

  /** The fraction `t` of `d`: none of it at 0, all of it at 1, and between 0 and `d` in between. */
  lemma Scaled(d: real, t: real)
    ensures t == 0.0 ==> d * t == 0.0
    ensures t == 1.0 ==> d * t == d
    ensures 0.0 <= t <= 1.0 && d >= 0.0 ==> 0.0 <= d * t <= d
    ensures 0.0 <= t <= 1.0 && d <= 0.0 ==> d <= d * t <= 0.0
  {
    if 0.0 <= t <= 1.0 {
      var u := 1.0 - t;
      assert d * u == d - d * t;
      if d >= 0.0 {
        assert d * t >= 0.0;
        assert d * u >= 0.0;
      } else {
        assert (-d) * t >= 0.0;
        assert (-d) * u >= 0.0;
      }
    }
  }

  /** One falling tick: lerp towards the point below on the ground; x and z stay, y shrinks by 5%. */
  function FallingPosition(p: Vec3): (r: Vec3)
    ensures r.x == p.x && r.z == p.z
    ensures r.y == 0.95 * p.y
  {
    Lerp(p, Vec3(p.x, 0.0, p.z), FALL_FACTOR)
  }

  /** Where one `update` of state `s` puts a mesh standing at `p`; `dt` plays no part. */
  function StepPosition(s: PhuckState, p: Vec3, o: Orbit, et: real, trig: Trig): (r: Vec3)
    ensures s == Idle ==> r == p
    ensures s != Live ==> r.x == p.x && r.z == p.z
    ensures s != Falling ==> r.y == p.y
    ensures p.y >= 0.0 ==> 0.0 <= r.y <= p.y
  {
    match s
    case Idle => p
    case Live => LivePosition(o, et, trig, p.y)
    case Falling => FallingPosition(p)
  }

  /** In the live state x and z depend only on `et` and the orbit, not on where the mesh was; y is kept. */
  lemma LiveIgnoresHistory(o: Orbit, p: Vec3, q: Vec3, et: real, trig: Trig)
    ensures StepPosition(Live, p, o, et, trig).x == StepPosition(Live, q, o, et, trig).x
    ensures StepPosition(Live, p, o, et, trig).z == StepPosition(Live, q, o, et, trig).z
    ensures StepPosition(Live, p, o, et, trig).y == p.y
  {
  }

  /** Falling from above the ground goes strictly down but stays above it; the ground is a fixpoint. */
  lemma FallingTick(p: Vec3)
    ensures p.y > 0.0 ==> 0.0 < FallingPosition(p).y < p.y
    ensures p.y == 0.0 ==> FallingPosition(p) == p
  {
  }

  function Pow(b: real, n: nat): real
  {
    if n == 0 then 1.0 else b * Pow(b, n - 1)
  }

  lemma {:induction false} PowPositive(b: real, n: nat)
    requires b > 0.0
    ensures Pow(b, n) > 0.0
  {
    if n > 0 {
      PowPositive(b, n - 1);
    }
  }

  /** The mesh position after `n` falling ticks. */
  function Fallen(p: Vec3, n: nat): Vec3
  {
    if n == 0 then p else FallingPosition(Fallen(p, n - 1))
  }

  /** After `n` falling ticks `y = y0 * 0.95^n`, with x and z unchanged. */
  lemma {:induction false} FallenClosedForm(p: Vec3, n: nat)
    ensures Fallen(p, n) == Vec3(p.x, p.y * Pow(0.95, n), p.z)
  {
    if n > 0 {
      FallenClosedForm(p, n - 1);
      calc {
        Fallen(p, n).y;
        0.95 * Fallen(p, n - 1).y;
        0.95 * (p.y * Pow(0.95, n - 1));
        p.y * (0.95 * Pow(0.95, n - 1));
      }
    }
  }

  /** From above the ground the enemy descends at every tick and never lands in finitely many. */
  lemma NeverLands(p: Vec3, n: nat)
    requires p.y > 0.0
    ensures 0.0 < Fallen(p, n + 1).y < Fallen(p, n).y
  {
    FallenClosedForm(p, n);
    PowPositive(0.95, n);
    assert Fallen(p, n).y > 0.0;
    FallingTick(Fallen(p, n));
  }

  /**
   * The state's `update`, on the enemy's mesh. The base state changes nothing.
   * The live state sets x and z on the orbit, turns the mesh to `atan2(x, z)`,
   * and answers whether the hit test is to be run: exactly when the shooting
   * flag is true. The falling state lerps the mesh towards the ground.
   */
  method Update(s: PhuckState, mesh: Mesh, o: Orbit, playerIsShooting: bool, dt: real, et: real, trig: Trig) returns (runHitTest: bool)
    modifies mesh
    ensures mesh.position == StepPosition(s, old(mesh.position), o, et, trig)
    ensures s == Live ==> mesh.rotationY == trig.atan2(mesh.position.x, mesh.position.z)
    ensures s != Live ==> mesh.rotationY == old(mesh.rotationY)
    ensures runHitTest <==> s == Live && playerIsShooting
  {
    match s
    case Idle =>
      runHitTest := false;
    case Live =>
      var x := o.center.x + trig.cos(o.initialAngle + et) * o.radius;
      var z := o.center.z + trig.sin(o.initialAngle + et) * o.radius;
      mesh.position := Vec3(x, mesh.position.y, z);
      mesh.rotationY := trig.atan2(mesh.position.x, mesh.position.z);
      runHitTest := playerIsShooting == true;
    case Falling =>
      var original := mesh.position;
      var destination := Vec3(mesh.position.x, 0.0, mesh.position.z);
      var current := Lerp(original, destination, FALL_FACTOR);
      mesh.position := current;
      assert current == FallingPosition(original);
      runHitTest := false;
  }
}
