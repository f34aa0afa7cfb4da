/** The hero record that every per-frame step reads and updates in place. */
module HeroEntity {

  /** Horizontal position of the villain, which the hero's sprite turns to
      face; the villain is placed there at start-up and on restart and is
      never moved otherwise. */
  const VillainX: real := 3.0

  class Hero {
    // position and velocity
    var x: real
    var y: real
    var z: real
    var vx: real
    var vy: real
    var grounded: bool
    var falling: bool
    // combat
    var lastAttack: int
    var health: int
    var lastHit: int
    var invulnerableTime: int
    var isInvulnerable: bool
    // dodge
    var isDodging: bool
    const dodgeSpeed: real
    var dodgeDirection: int
    var dodgeStartTime: int
    const dodgeDuration: int
    const dodgeCooldown: int
    var lastDodge: int
    var hasReachedSecondRooftop: bool
    // smoke bombs
    var hasSmokeAttack: bool
    var smokeBombsCount: int
    var lastSmokeBombRespawn: int
    const smokeBombRespawnCooldown: int
    /** The sign of the sprite's horizontal scale: true when it faces right. */
    var facingRight: bool

    /** `initHero`: the hero standing at the start of the first rooftop. */
    constructor InitHero()
      ensures x == 0.0 && y == 1.5 && z == 0.0 && vx == 0.0 && vy == 0.0
      ensures grounded && !falling
      ensures lastAttack == 0 && health == 100 && lastHit == 0
      ensures invulnerableTime == 1000 && !isInvulnerable
      ensures !isDodging && dodgeSpeed == 0.6 && dodgeDirection == 0 && dodgeStartTime == 0
      ensures dodgeDuration == 250 && dodgeCooldown == 1000 && lastDodge == 0
      ensures dodgeDuration < dodgeCooldown
      ensures !hasReachedSecondRooftop && !hasSmokeAttack && smokeBombsCount == 0
      ensures lastSmokeBombRespawn == 0 && smokeBombRespawnCooldown == 10000
      ensures facingRight
    {
      x, y, z := 0.0, 1.5, 0.0;
      vx, vy := 0.0, 0.0;
      grounded, falling := true, false;
      lastAttack := 0;
      health := 100;
      lastHit := 0;
      invulnerableTime := 1000;
      isInvulnerable := false;
      isDodging := false;
      dodgeSpeed := 0.6;
      dodgeDirection := 0;
      dodgeStartTime := 0;
      dodgeDuration := 250;
      dodgeCooldown := 1000;
      lastDodge := 0;
      hasReachedSecondRooftop := false;
      hasSmokeAttack := false;
      smokeBombsCount := 0;
      lastSmokeBombRespawn := 0;
      smokeBombRespawnCooldown := 10000;
      facingRight := true;
    }
  }
}
