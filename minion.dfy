/** Minion records, as `createMinion` builds them, and the shared array that
    holds the current wave. */
module MinionEntity {
  import opened Common

  /** A minion. `position` is the record's own copy of its spawn point and
      `groupPosition` the scene-graph position every distance test reads;
      `indicator` is None until an attack-range ring has been attached, then
      Some(visible). */
  datatype Minion = Minion(
    position: Vec3,
    groupPosition: Vec3,
    health: int,
    active: bool,
    visible: bool,
    lastHit: int,
    hitCooldown: int,
    level: int,
    canShoot: bool,
    projectileCooldown: int,
    lastProjectile: int,
    indicator: Option<bool>)

  const MinionHitCooldown: int := 500
  const MinionProjectileCooldown: int := 9000

  /** `createMinion(scene, x, y, z, level = 1)`. */
  function CreateMinion(x: real, y: real, z: real, level: int := 1): (m: Minion)
    ensures m.health == 100 && m.active && m.visible
    ensures m.lastHit == 0 && m.lastProjectile == 0 && m.indicator == None
    ensures m.position == Vec3(x, y, z) && m.groupPosition == m.position
    ensures m.level == level && (m.canShoot <==> level >= 2)
    ensures m.hitCooldown == MinionHitCooldown && m.projectileCooldown == MinionProjectileCooldown
  {
    Minion(Vec3(x, y, z), Vec3(x, y, z), 100, true, true, 0, MinionHitCooldown,
           level, level >= 2, MinionProjectileCooldown, 0, None)
  }

  /** The tint of the spawn ring in `createMinionSpawnEffect`. */
  function SpawnColour(level: int := 1): (c: int)
    ensures level == 1 ==> c == 0xff33ff
    ensures level == 2 ==> c == 0xffaa00
    ensures level != 1 && level != 2 ==> c == Red
  {
    if level == 1 then 0xff33ff else if level == 2 then 0xffaa00 else Red
  }

  /** The `minions` array shared by the frame loop, the spawn timers and the
      level transition. */
  class MinionList {
    var items: seq<Minion>

    constructor ()
      ensures items == []
    {
      items := [];
    }
  }
}
