/**
 * The level (`Level.ts`), bookkeeping only: it spawns `config.enemies` enemies
 * evenly spaced round one orbit, registers each as an observer of the player,
 * and each frame updates every enemy in array order. Maze, floor, walls,
 * lights and adding meshes to the scene are three.js construction and are not
 * part of this model.
 */
module Levels {
  import opened Geometry
  import opened Actors
  import opened PhuckStates
  import opened Phucks
  import ActorsPlayer

  datatype LevelConfig = LevelConfig(enemies: int)

  const SPAWN_CENTER: Vec3 := Vec3(0.0, 8.0, 0.0)
  const SPAWN_RADIUS: real := 4.0
  const SPAWN_HEALTH: real := 100.0
  const SPAWN_HIT_DAMAGE: real := 50.0

  /** How many times `for (i = 0; i < enemies; i++)` runs. */
  function Spawns(enemies: int): nat
  {
    if enemies < 0 then 0 else enemies
  }

  /** The `i`-th initial angle in degrees, before `degToRad`: `i * (360 / enemies)`. */
  function SpawnDegrees(i: nat, enemies: int): (d: real)
    requires enemies > 0
    ensures i == 0 ==> d == 0.0
    ensures 0.0 <= d
    ensures i < enemies ==> d < 360.0
  {
    var step := 360.0 / enemies as real;
    assert step > 0.0;
    assert (enemies - i) as real * step > 0.0 <== i < enemies;
    assert enemies as real * step == 360.0;
    (i as real) * step
  }

  /** The spawn angles are evenly spaced: consecutive ones differ by `360 / enemies`, and `enemies` steps make a full turn. */
  lemma EvenlySpaced(i: nat, enemies: int)
    requires enemies > 0
    ensures SpawnDegrees(0, enemies) == 0.0
    ensures SpawnDegrees(i + 1, enemies) - SpawnDegrees(i, enemies) == 360.0 / enemies as real
    ensures SpawnDegrees(enemies, enemies) == 360.0
  {
    var n := enemies as real;
    assert (i + 1) as real * (360.0 / n) == i as real * (360.0 / n) + 360.0 / n;
    assert n * (360.0 / n) == 360.0;
  }

  /** The orbit and stats every spawned enemy gets, with its own initial angle. */
  predicate Spawned(p: Phuck, angle: real)
  {
    && p.center == SPAWN_CENTER && p.radius == SPAWN_RADIUS && p.initialAngle == angle
    && p.health == SPAWN_HEALTH && p.hitDamage == SPAWN_HIT_DAMAGE
  }

  /** How a spawned enemy starts out: live, not shooting, and on its orbit at the initial angle, at the center's height. */
  ghost predicate Started(p: Phuck, trig: Trig)
    reads p, p.mesh
  {
    && p.state == Live && !p.playerIsShooting
    && p.mesh.position == LivePosition(p.OrbitOf(), 0.0, trig, p.center.y)
  }

  /** The actors of `ps`, in order. */
  function ActorsOf(ps: seq<Phuck>): seq<Actor>
  {
    seq(|ps|, i requires 0 <= i < |ps| => ps[i].actor)
  }

  /** Every field that `Phuck.Update` may write still holds the given value. */
  ghost predicate Kept(p: Phuck, position: Vec3, rotationY: real, isOnTarget: bool, rotation: real,
                       playerIsShooting: bool, state: PhuckState)
    reads p, p.mesh
  {
    && p.state == state && p.mesh.position == position && p.mesh.rotationY == rotationY
    && p.isOnTarget == isOnTarget && p.rotation == rotation && p.playerIsShooting == playerIsShooting
  }

  /** `p` has done one `Phuck.Update` since the earlier state. */
  twostate predicate SteppedSince(p: Phuck, et: real, trig: Trig, raycast: Vec3 -> nat)
    reads p, p.mesh
  {
    Stepped(p, old(p.mesh.position), old(p.mesh.rotationY), old(p.isOnTarget), old(p.rotation), old(p.playerIsShooting), old(p.state), et, trig, raycast)
  }

  /** `p` is as it was in the earlier state, as far as `Phuck.Update` can tell. */
  twostate predicate KeptSince(p: Phuck)
    reads p, p.mesh
  {
    Kept(p, old(p.mesh.position), old(p.mesh.rotationY), old(p.isOnTarget), old(p.rotation), old(p.playerIsShooting), old(p.state))
  }

  class Level {
    const player: ActorsPlayer.Player
    const config: LevelConfig
    var phucks: seq<Phuck>

    ghost function Meshes(): set<Mesh>
      reads this
    {
      set p | p in phucks :: p.mesh
    }

    /** No enemy, and no mesh, appears twice. */
    ghost predicate Distinct()
      reads this
    {
      forall i, j :: 0 <= i < j < |phucks| ==> phucks[i] != phucks[j] && phucks[i].mesh != phucks[j].mesh
    }

    ghost predicate Valid()
      reads this, phucks
    {
      Distinct() && forall i :: 0 <= i < |phucks| ==> phucks[i].Valid()
    }

    /** Starts with no enemies, then spawns them. */
    constructor (player: ActorsPlayer.Player, config: LevelConfig, trig: Trig)
      requires player.actor.Valid()
      modifies player.actor
      ensures Valid() && player.actor.Valid() && this.player == player && this.config == config
      ensures |phucks| == Spawns(config.enemies)
      ensures forall k :: 0 <= k < |phucks| ==> Spawned(phucks[k], trig.degToRad(SpawnDegrees(k, config.enemies)))
      ensures forall k :: 0 <= k < |phucks| ==> Started(phucks[k], trig)
      ensures forall k :: 0 <= k < |phucks| ==> fresh(phucks[k]) && fresh(phucks[k].mesh)
      ensures player.actor.observers == old(player.actor.observers) + ActorsOf(phucks)
    {
      this.player := player;
      this.config := config;
      phucks := [];
      new;
      SpawnPhucks(trig);
      assert phucks[0..] == phucks;
      forall k | 0 <= k < |phucks|
        ensures Spawned(phucks[k], trig.degToRad(SpawnDegrees(k, config.enemies))) && Started(phucks[k], trig)
      {
        assert k - 0 == k;
      }
    }

    /**
     * `spawnPhucks`: `enemies` new enemies, the `i`-th at angle
     * `degToRad(i * (360 / enemies))`, each appended and registered with the player in turn.
     */
    method SpawnPhucks(trig: Trig)
      requires Valid() && player.actor.Valid()
      modifies this, player.actor
      ensures Valid() && player.actor.Valid()
      ensures |phucks| == |old(phucks)| + Spawns(config.enemies) && phucks[..|old(phucks)|] == old(phucks)
      ensures forall j :: |old(phucks)| <= j < |phucks| ==>
        fresh(phucks[j]) && fresh(phucks[j].mesh) && Spawned(phucks[j], trig.degToRad(SpawnDegrees(j - |old(phucks)|, config.enemies)))
      ensures forall j :: |old(phucks)| <= j < |phucks| ==> Started(phucks[j], trig)
      ensures player.actor.observers == old(player.actor.observers) + ActorsOf(phucks[|old(phucks)|..])
    {
      var i := 0;
      while i < config.enemies
        invariant 0 <= i <= Spawns(config.enemies)
        invariant Valid() && player.actor.Valid()
        invariant |phucks| == |old(phucks)| + i && phucks[..|old(phucks)|] == old(phucks)
        invariant forall j :: |old(phucks)| <= j < |phucks| ==>
          fresh(phucks[j]) && fresh(phucks[j].mesh) && Spawned(phucks[j], trig.degToRad(SpawnDegrees(j - |old(phucks)|, config.enemies)))
        invariant forall j :: |old(phucks)| <= j < |phucks| ==> Started(phucks[j], trig)
        invariant player.actor.observers == old(player.actor.observers) + ActorsOf(phucks[|old(phucks)|..])
      {
        var initialAngle := trig.degToRad((i as real) * (360.0 / config.enemies as real));
        assert SpawnDegrees(i, config.enemies) == (i as real) * (360.0 / config.enemies as real);
        var center := Vec3(0.0, 8.0, 0.0);
        var radius := 4.0;
        ghost var before := phucks;
        SpawnPhuck(center, radius, initialAngle, trig);
        assert forall k :: 0 <= k < |before| ==> phucks[k] == before[k];
        assert Spawned(phucks[|before|], trig.degToRad(SpawnDegrees(|before| - |old(phucks)|, config.enemies)));
        assert phucks[|old(phucks)|..] == before[|old(phucks)|..] + [phucks[|phucks| - 1]];
        i := i + 1;
      }
    }

    /** `spawnPhuck`: a new enemy with health 100 and hit damage 50, registered with the player and appended. */
    method SpawnPhuck(center: Vec3, radius: real, initialAngle: real, trig: Trig)
      requires Valid() && player.actor.Valid()
      modifies this, player.actor
      ensures Valid() && player.actor.Valid()
      ensures |phucks| == |old(phucks)| + 1 && phucks[..|old(phucks)|] == old(phucks)
      ensures fresh(phucks[|old(phucks)|]) && fresh(phucks[|old(phucks)|].mesh)
      ensures phucks[|old(phucks)|].center == center && phucks[|old(phucks)|].radius == radius
      ensures phucks[|old(phucks)|].initialAngle == initialAngle
      ensures phucks[|old(phucks)|].health == SPAWN_HEALTH && phucks[|old(phucks)|].hitDamage == SPAWN_HIT_DAMAGE
      ensures Started(phucks[|old(phucks)|], trig)
      ensures player.actor.observers == old(player.actor.observers) + [phucks[|old(phucks)|].actor]
    {
      var phuck := new Phuck(center, radius, initialAngle, 100.0, 50.0, trig);
      assert phuck.OrbitOf() == Orbit(center, radius, initialAngle);
      LiveAtStart(Orbit(center, radius, initialAngle), trig, center.y);
      assert phuck.mesh.position == LivePosition(phuck.OrbitOf(), 0.0, trig, phuck.center.y);
      player.actor.AddObserver(phuck.actor);
      phucks := phucks + [phuck];
    }

    /**
     * `update`: every enemy's `update(dt, et)`, once each: each keeps its
     * state and does exactly what `Phuck.Update` promises for it.
     */
    method Update(dt: real, et: real, trig: Trig, raycast: Vec3 -> nat)
      requires Valid()
      modifies phucks, Meshes()
      ensures Valid()
      ensures forall k :: 0 <= k < |phucks| ==> SteppedSince(phucks[k], et, trig, raycast)
    {
      var i := 0;
      while i < |phucks|
        invariant 0 <= i <= |phucks|
        invariant Distinct() && forall k :: 0 <= k < |phucks| ==> phucks[k].Valid()
        invariant forall k :: 0 <= k < i ==> SteppedSince(phucks[k], et, trig, raycast)
        invariant forall k :: i <= k < |phucks| ==> KeptSince(phucks[k])
      {
        UpdatePhuck(i, dt, et, trig, raycast);
        i := i + 1;
      }
    }

    /** The `i`-th enemy's `update(dt, et)`; no other enemy or mesh is touched. */
    method UpdatePhuck(i: nat, dt: real, et: real, trig: Trig, raycast: Vec3 -> nat)
      requires Distinct() && i < |phucks| && phucks[i].Valid()
      modifies phucks[i], phucks[i].mesh
      ensures phucks[i].Valid() && SteppedSince(phucks[i], et, trig, raycast)
      ensures forall k :: 0 <= k < |phucks| && k != i ==> unchanged(phucks[k], phucks[k].mesh)
    {
      phucks[i].Update(dt, et, trig, raycast);
    }
  }

  /**
   * Building a level of three enemies and running one frame: every enemy is
   * still live and not shooting, and flies on its orbit at height 8.
   */
  method FreshLevelOrbits(player: ActorsPlayer.Player, et: real, trig: Trig, raycast: Vec3 -> nat) returns (level: Level)
    requires player.actor.Valid()
    modifies player.actor
    ensures |level.phucks| == 3 && level.Valid()
    ensures forall k :: 0 <= k < 3 ==>
      && level.phucks[k].state == Live && !level.phucks[k].playerIsShooting
      && level.phucks[k].mesh.position == LivePosition(level.phucks[k].OrbitOf(), et, trig, SPAWN_CENTER.y)
  {
    level := new Level(player, LevelConfig(3), trig);
    level.Update(0.0, et, trig, raycast);
  }
}
