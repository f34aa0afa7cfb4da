/** One frame of the game loop, and the deferred events it schedules: the
    hero's movement, dodge, jump and gravity, the rooftop support lookup,
    the death and fall triggers, the floor clamp, the one-time wave spawn,
    and then combat. */
module AnimationLoop {
  import opened Common
  import opened Rooftops
  import opened HeroEntity
  import opened Game
  import opened MinionEntity
  import opened Combat
  import opened SmokeBomb
  import opened Controls
  import opened Trail

  const GroundY: real := 1.5
  const WalkSpeed: real := 0.3
  const Friction: real := 0.85
  const JumpSpeed: real := 0.25
  const BoostJumpSpeed: real := 0.35
  const BoostForwardSpeed: real := 0.4
  /** The boost zone starts here on the first rooftop. */
  const BoostZoneX: real := 7.0
  const GravityStep: real := 0.015
  /** Half the hero's width, the tolerance of the support test. */
  const HeroHalfWidth: real := 1.0
  const DodgeInvulnerabilityBuffer: int := 100
  /** The longest gap between frames, in milliseconds, that is still drawn
      (30 frames per second). */
  const FrameBudget: real := 33.33

  /** A frame that comes too long after the previous one is skipped. */
  predicate FrameSkipped(elapsed: real) {
    elapsed > FrameBudget
  }

  // ---------------------------------------------------------------------
  // Movement

  /** The direction of a new dodge: left if held, else right if held, else
      the way the hero faces. */
  function DodgeDirection(keys: KeyFlags, facingRight: bool): (d: int)
    ensures d == -1 || d == 1
    ensures keys.left ==> d == -1
    ensures !keys.left && keys.right ==> d == 1
    ensures !keys.left && !keys.right ==> (d == 1 <==> facingRight)
  {
    if keys.left then -1 else if keys.right then 1 else if facingRight then 1 else -1
  }

  /** Whether a dodge starts this frame. */
  predicate DodgeStarts(keys: KeyFlags, isDodging: bool, lastDodge: int, dodgeCooldown: int, now: int) {
    keys.dodge && !isDodging && now - lastDodge > dodgeCooldown
  }

  /** The dodge start: the hero dodges, is invulnerable for the dodge and a
      short buffer, and that window replaces `invulnerableTime` for good. */
  method StartDodge(hero: Hero, keys: KeyFlags, now: int)
    modifies hero`isDodging, hero`dodgeStartTime, hero`lastDodge, hero`dodgeDirection,
             hero`isInvulnerable, hero`lastHit, hero`invulnerableTime
    ensures DodgeStarts(keys, old(hero.isDodging), old(hero.lastDodge), hero.dodgeCooldown, now) ==>
              && hero.isDodging && hero.dodgeStartTime == now && hero.lastDodge == now
              && hero.dodgeDirection == DodgeDirection(keys, hero.facingRight)
              && hero.isInvulnerable && hero.lastHit == now
              && hero.invulnerableTime == hero.dodgeDuration + DodgeInvulnerabilityBuffer
    ensures !DodgeStarts(keys, old(hero.isDodging), old(hero.lastDodge), hero.dodgeCooldown, now) ==>
              unchanged(hero)
  {
    if keys.dodge && !hero.isDodging {
      if now - hero.lastDodge > hero.dodgeCooldown {
        hero.isDodging := true;
        hero.dodgeStartTime := now;
        hero.lastDodge := now;
        if keys.left {
          hero.dodgeDirection := -1;
        } else if keys.right {
          hero.dodgeDirection := 1;
        } else {
          hero.dodgeDirection := if hero.facingRight then 1 else -1;
        }
        hero.isInvulnerable := true;
        hero.lastHit := now;
        hero.invulnerableTime := hero.dodgeDuration + DodgeInvulnerabilityBuffer;
      }
    }
  }

  /** Horizontal velocity from the arrow keys when not dodging: left wins
      over right, and with neither the hero slows down. */
  function WalkVelocity(keys: KeyFlags, vx: real): (v: real)
    ensures keys.left ==> v == -WalkSpeed
    ensures !keys.left && keys.right ==> v == WalkSpeed
    ensures !keys.left && !keys.right ==> Abs(v) <= Abs(vx) && (v == 0.0 <==> vx == 0.0) && (v > 0.0 <==> vx > 0.0)
  {
    if keys.left then -WalkSpeed else if keys.right then WalkSpeed else vx * Friction
  }

  /** Dodge motion, or walking when not dodging. A dodge moves the hero at
      the dodge speed until its duration is up; the frame it ends, the
      momentum is halved. */
  method Steer(hero: Hero, keys: KeyFlags, now: int)
    modifies hero`vx, hero`isDodging
    ensures old(hero.isDodging) && now - hero.dodgeStartTime < hero.dodgeDuration ==>
              hero.isDodging && hero.vx == hero.dodgeDirection as real * hero.dodgeSpeed
    ensures old(hero.isDodging) && now - hero.dodgeStartTime >= hero.dodgeDuration ==>
              !hero.isDodging && hero.vx == old(hero.vx) * 0.5
    ensures !old(hero.isDodging) ==> !hero.isDodging && hero.vx == WalkVelocity(keys, old(hero.vx))
  {
    if hero.isDodging {
      var dodgeElapsed := now - hero.dodgeStartTime;
      if dodgeElapsed < hero.dodgeDuration {
        hero.vx := hero.dodgeDirection as real * hero.dodgeSpeed;
      } else {
        hero.isDodging := false;
        hero.vx := hero.vx * 0.5;
      }
    } else {
      if keys.left {
        hero.vx := -WalkSpeed;
      } else if keys.right {
        hero.vx := WalkSpeed;
      } else {
        hero.vx := hero.vx * Friction;
      }
    }
  }

  /** The jump boost: the first rooftop the hero stands strictly on is the
      starting roof, and the hero is past its boost line. */
  predicate InBoostZone(roofs: seq<Rooftop>, x: real, z: real) {
    var f := FirstOver(roofs, x, z, 0.0, 0);
    f.Some? && roofs[f.value].id == 0 && x > BoostZoneX
  }

  /** On the game's rooftops the boost zone is the part of the first roof
      past x = 7. */
  lemma BoostZoneOfGameRooftops(x: real, z: real)
    ensures InBoostZone(CreateRooftops(), x, z) <==> BoostZoneX < x <= 15.0 && Abs(z) <= 5.0
  {
    var roofs := CreateRooftops();
    FirstMatchIsOnlyMatch(x, z, 0.0, 0);
    FirstMatchIsOnlyMatch(x, z, 0.0, 1);
  }

  /** A jump, from the ground only: a boosted jump high and forward from the
      boost zone, a normal jump anywhere else. */
  method Jump(hero: Hero, keys: KeyFlags, roofs: seq<Rooftop>)
    modifies hero`vx, hero`vy, hero`grounded
    ensures keys.jump && old(hero.grounded) ==>
              !hero.grounded
              && (if InBoostZone(roofs, hero.x, hero.z)
                  then hero.vy == BoostJumpSpeed && hero.vx == BoostForwardSpeed
                  else hero.vy == JumpSpeed && hero.vx == old(hero.vx))
    ensures !(keys.jump && old(hero.grounded)) ==> unchanged(hero)
  {
    if keys.jump && hero.grounded {
      var isNearFirstRooftopEdge := false;
      var current := FindRooftop(roofs, hero.x, hero.z, 0.0);
      if current.Some? && roofs[current.value].id == 0 {
        if hero.x > BoostZoneX {
          isNearFirstRooftopEdge := true;
        }
      }
      if isNearFirstRooftopEdge {
        hero.vy := BoostJumpSpeed;
        hero.vx := BoostForwardSpeed;
      } else {
        hero.vy := JumpSpeed;
      }
      hero.grounded := false;
    }
  }

  /** The horizontal velocity a free-play frame gives the hero, from its
      state before the frame: a dodge that starts now or is still running
      moves it at the dodge speed, a dodge whose time is up halves its
      momentum, otherwise it walks; a boosted jump then overrides all of
      these. */
  function FreeVx(hero: Hero, keys: KeyFlags, roofs: seq<Rooftop>, now: int): real
    reads hero
  {
    var starts := DodgeStarts(keys, hero.isDodging, hero.lastDodge, hero.dodgeCooldown, now);
    var direction := if starts then DodgeDirection(keys, hero.facingRight) else hero.dodgeDirection;
    var startTime := if starts then now else hero.dodgeStartTime;
    var steered :=
      if !(hero.isDodging || starts) then WalkVelocity(keys, hero.vx)
      else if now - startTime < hero.dodgeDuration then direction as real * hero.dodgeSpeed
      else hero.vx * 0.5;
    if keys.jump && hero.grounded && InBoostZone(roofs, hero.x, hero.z) then BoostForwardSpeed else steered
  }

  /** Free play never makes the hero faster than the fastest of its own
      speed, the walk, the boost and the dodge: a bound on the horizontal
      speed that every free-play frame keeps. */
  lemma FreeSpeedBounded(hero: Hero, keys: KeyFlags, roofs: seq<Rooftop>, now: int, bound: real)
    requires -1 <= hero.dodgeDirection <= 1
    requires BoostForwardSpeed <= bound && Abs(hero.dodgeSpeed) <= bound && Abs(hero.vx) <= bound
    ensures Abs(FreeVx(hero, keys, roofs, now)) <= bound
  {
    var starts := DodgeStarts(keys, hero.isDodging, hero.lastDodge, hero.dodgeCooldown, now);
    var direction := if starts then DodgeDirection(keys, hero.facingRight) else hero.dodgeDirection;
    assert Abs(direction as real * hero.dodgeSpeed) <= Abs(hero.dodgeSpeed) by {
      if direction == 0 {
      } else if direction == 1 {
      } else {
        assert direction as real * hero.dodgeSpeed == -hero.dodgeSpeed;
      }
    }
    assert Abs(hero.vx * 0.5) <= Abs(hero.vx);
  }

  /** The hero's vertical state: height, vertical velocity, and whether it
      stands on a roof. */
  datatype Vertical = Vertical(y: real, vy: real, grounded: bool)

  /** The hero standing at rest on a roof. */
  const Rest: Vertical := Vertical(GroundY, 0.0, true)

  /** The vertical part of a free-play frame: a jump from the ground sets
      the launch speed (the boosted one in the boost zone) and leaves the
      ground; gravity then takes 0.015 off the vertical velocity, and the
      hero moves by it. */
  function FreeFall(v: Vertical, jump: bool, boost: bool): Vertical {
    var launched := jump && v.grounded;
    var vy := (if launched then (if boost then BoostJumpSpeed else JumpSpeed) else v.vy) - GravityStep;
    Vertical(v.y + vy, vy, v.grounded && !launched)
  }

  /** The floor clamp: a hero that is not falling and has sunk below the
      roof is put back on it, at rest and grounded. */
  function Settle(v: Vertical, falling: bool): (r: Vertical)
    ensures !falling ==> r.y >= GroundY
    ensures !falling && v.y < GroundY ==> r == Rest
    ensures falling || v.y >= GroundY ==> r == v
  {
    if v.y < GroundY && !falling then Rest else v
  }

  /** `n` frames over a roof with no key held: free fall, then the clamp. */
  function Drift(v: Vertical, n: nat): Vertical
    decreases n
  {
    if n == 0 then v else Drift(Settle(FreeFall(v, false, false), false), n - 1)
  }

  lemma {:induction false} DriftSplit(v: Vertical, a: nat, b: nat)
    ensures Drift(v, a + b) == Drift(Drift(v, a), b)
    decreases a
  {
    if a > 0 {
      DriftSplit(Settle(FreeFall(v, false, false), false), a - 1, b);
    }
  }

  /** Gravity and the clamp together keep a hero at rest on a roof at rest,
      for any number of frames. */
  lemma {:induction false} RestIsStable(n: nat)
    ensures Drift(Rest, n) == Rest
    decreases n
  {
    if n > 0 {
      assert Settle(FreeFall(Rest, false, false), false) == Rest;
      RestIsStable(n - 1);
    }
  }

  /** The height after `k` airborne frames, by the closed form of constant
      gravity. */
  function Height(v: Vertical, k: nat): real {
    v.y + k as real * v.vy - GravityStep * (k * (k + 1)) as real / 2.0
  }

  lemma HeightShift(v: Vertical, k: nat)
    ensures Height(Vertical(v.y + (v.vy - GravityStep), v.vy - GravityStep, false), k) == Height(v, k + 1)
  {
    var kr := k as real;
    assert (k * (k + 1)) as real == kr * kr + kr;
    assert ((k + 1) * (k + 2)) as real == kr * kr + 3.0 * kr + 2.0;
  }

  /** While it stays above the roof, an airborne hero follows the parabola
      of constant gravity: its height is `Height` and its vertical velocity
      falls by 0.015 a frame. */
  lemma {:induction false} Ballistic(v: Vertical, n: nat)
    requires !v.grounded
    requires forall k :: 0 < k <= n ==> Height(v, k) >= GroundY
    ensures Drift(v, n) == Vertical(Height(v, n), v.vy - n as real * GravityStep, false)
    decreases n
  {
    if n > 0 {
      var u := Vertical(v.y + (v.vy - GravityStep), v.vy - GravityStep, false);
      HeightShift(v, 0);
      assert Settle(FreeFall(v, false, false), false) == u;
      forall k | 0 < k <= n - 1
        ensures Height(u, k) >= GroundY
      {
        HeightShift(v, k);
      }
      Ballistic(u, n - 1);
      HeightShift(v, n - 1);
    }
  }

  /** The quadratic bound the normal jump's flight needs. */
  lemma JumpArcAboveRoof(k: nat)
    requires 0 < k <= 31
    ensures Height(Vertical(GroundY + JumpSpeed - GravityStep, JumpSpeed - GravityStep, false), k) >= GroundY
  {
    var kr := k as real;
    assert (k * (k + 1)) as real == kr * kr + kr;
    assert kr * (31.0 - kr) >= 0.0;
  }

  /** A normal jump from rest with nothing else held stays airborne for 32
      frames (the jump frame included) and is back at rest on the 33rd. */
  lemma NormalJumpAirtime()
    ensures var start := Settle(FreeFall(Rest, true, false), false);
            && !Drift(start, 31).grounded && Drift(start, 31).y > GroundY
            && Drift(start, 32) == Rest
  {
    var start := Settle(FreeFall(Rest, true, false), false);
    assert start == Vertical(GroundY + JumpSpeed - GravityStep, JumpSpeed - GravityStep, false);
    forall k | 0 < k <= 31
      ensures Height(start, k) >= GroundY
    {
      JumpArcAboveRoof(k);
    }
    Ballistic(start, 31);
    var top := Drift(start, 31);
    assert top == Vertical(1.58, -0.23, false);
    DriftSplit(start, 31, 1);
    assert Drift(top, 1) == Drift(Rest, 0);
  }

  /** The velocity changes of a free-play frame: dodge, walk, jump and
      gravity. */
  method Accelerate(hero: Hero, keys: KeyFlags, roofs: seq<Rooftop>, now: int)
    modifies hero`vx, hero`vy, hero`grounded, hero`isDodging, hero`dodgeStartTime,
             hero`lastDodge, hero`dodgeDirection, hero`isInvulnerable, hero`lastHit, hero`invulnerableTime
    ensures hero.vx == old(FreeVx(hero, keys, roofs, now))
    ensures Vertical(hero.y + hero.vy, hero.vy, hero.grounded)
         == FreeFall(Vertical(hero.y, old(hero.vy), old(hero.grounded)), keys.jump, InBoostZone(roofs, hero.x, hero.z))
  {
    StartDodge(hero, keys, now);
    Steer(hero, keys, now);
    Jump(hero, keys, roofs);
    hero.vy := hero.vy - GravityStep;
  }

  /** The gameplay part of the frame: pickup of the first smoke bomb,
      dodge, walk, jump and gravity while the hero is free to move, no
      velocity while locked, then one step of motion. Outside play the hero
      is held still. Returns whether the quiz was opened. */
  method MoveHero(hero: Hero, gs: GameState, keys: KeyFlags, bomb: Collectible,
                  roofs: seq<Rooftop>, now: int) returns (quizShown: bool)
    modifies hero`x, hero`y, hero`vx, hero`vy, hero`grounded, hero`isDodging, hero`dodgeStartTime,
             hero`lastDodge, hero`dodgeDirection, hero`isInvulnerable, hero`lastHit, hero`invulnerableTime,
             gs`movementLocked, bomb`collected, bomb`visible
    ensures quizShown <==> old(gs.gamePhase) == Gameplay && !old(gs.movementLocked)
                           && old(bomb.CheckCollision(hero.x, hero.y))
    ensures quizShown ==> bomb.collected && !bomb.visible && gs.movementLocked
    ensures !quizShown ==> unchanged(bomb) && gs.movementLocked == old(gs.movementLocked)
    ensures gs.gamePhase != Gameplay ==> hero.vx == 0.0 && hero.vy == 0.0 && unchanged(hero`x, hero`y)
    ensures gs.gamePhase == Gameplay && old(gs.movementLocked) ==>
              hero.vx == 0.0 && hero.vy == 0.0 && unchanged(hero`x, hero`y)
    ensures gs.gamePhase == Gameplay && !old(gs.movementLocked) ==>
              && hero.vx == old(FreeVx(hero, keys, roofs, now))
              && hero.x == old(hero.x) + hero.vx
              && Vertical(hero.y, hero.vy, hero.grounded)
                 == FreeFall(Vertical(old(hero.y), old(hero.vy), old(hero.grounded)), keys.jump,
                             InBoostZone(roofs, old(hero.x), old(hero.z)))
    ensures !(gs.gamePhase == Gameplay && !old(gs.movementLocked)) ==>
              hero.grounded == old(hero.grounded) && hero.isDodging == old(hero.isDodging)
              && hero.isInvulnerable == old(hero.isInvulnerable) && hero.lastDodge == old(hero.lastDodge)
  {
    quizShown := false;
    if gs.gamePhase == Gameplay {
      if !gs.movementLocked {
        if !bomb.collected && bomb.CheckCollision(hero.x, hero.y) {
          bomb.Collect();
          gs.movementLocked := true;
          quizShown := true;
        }
        Accelerate(hero, keys, roofs, now);
      } else {
        hero.vx := 0.0;
        hero.vy := 0.0;
      }
      hero.x := hero.x + hero.vx;
      hero.y := hero.y + hero.vy;
    } else {
      hero.vx := 0.0;
      hero.vy := 0.0;
    }
  }

  // ---------------------------------------------------------------------
  // Support, death, fall and clamp

  /** The id of the first rooftop any part of a hero at (x, z) is over. */
  function SupportId(roofs: seq<Rooftop>, x: real, z: real): Option<nat> {
    var f := FirstOver(roofs, x, z, HeroHalfWidth, 0);
    if f.Some? then Some(roofs[f.value].id) else None
  }

  /** The support lookup: the first rooftop any part of the hero is over.
      Reaching the second rooftop is recorded and never forgotten. Returns
      the id of that rooftop. */
  method Support(hero: Hero, roofs: seq<Rooftop>) returns (current: Option<nat>)
    modifies hero`hasReachedSecondRooftop
    ensures current == SupportId(roofs, hero.x, hero.z)
    ensures hero.hasReachedSecondRooftop == (old(hero.hasReachedSecondRooftop) || current == Some(1))
  {
    var found := FindRooftop(roofs, hero.x, hero.z, HeroHalfWidth);
    current := None;
    if found.Some? {
      var rooftop := roofs[found.value];
      current := Some(rooftop.id);
      if rooftop.id == 1 && !hero.hasReachedSecondRooftop {
        hero.hasReachedSecondRooftop := true;
      }
    }
  }

  // ---------------------------------------------------------------------
  // Minion indicators

  /** The attack-range ring of one minion: shown while it is in range,
      hidden once it has been shown and the minion is out of range. */
  function Indicate(heroX: real, m: Minion): (r: Minion)
    ensures r.(indicator := m.indicator) == m
    ensures InAttackRange(heroX, m) ==> r.indicator == Some(true)
    ensures m.active && !InAttackRange(heroX, m) ==> r.indicator == (if m.indicator.Some? then Some(false) else None)
    ensures !m.active ==> r == m
  {
    if !m.active then m
    else if Abs(heroX - m.groupPosition.x) < AttackRange then m.(indicator := Some(true))
    else if m.indicator.Some? then m.(indicator := Some(false))
    else m
  }

  /** The hero's fields the combat step writes. */
  datatype Fighter = Fighter(health: int, lastHit: int, isInvulnerable: bool, lastAttack: int, smokeBombsCount: int)

  datatype CombatResult = CombatResult(minions: seq<Minion>, hero: Fighter, aborted: bool)

  /** Reference for the combat step of a frame that does not clear the
      level: the range rings, then the attack if `attacked` (the reference
      strike, the bomb spent and the cooldown stamped when it reaches a
      minion, health 100 when its defeats complete the wave), then the
      minions' walk `UpdateFrom`, then the invulnerability expiry unless
      that walk aborted the frame. */
  function NextCombat(ms: seq<Minion>, heroX: real, attacked: bool, fought: int, hero: Fighter,
                      invulnerableTime: int, now: int): CombatResult
  {
    var ms1 := IndicateAll(heroX, ms);
    var hit := attacked && CountInRange(ms1, heroX) > 0;
    var ms2 := if attacked then StrikeAll(ms1, heroX) else ms1;
    var health := if attacked && Advances(fought, CountDefeated(ms1, heroX)) then 100 else hero.health;
    var f := UpdateFrom(Guard(health, hero.lastHit, hero.isInvulnerable), ms2, 0, heroX, now);
    CombatResult(f.minions,
                 Fighter(f.guard.health, f.guard.lastHit,
                         f.guard.isInvulnerable && (f.aborted || now - f.guard.lastHit <= invulnerableTime),
                         if hit then now else hero.lastAttack,
                         if hit then hero.smokeBombsCount - 1 else hero.smokeBombsCount),
                 f.aborted)
  }

  /** Every minion with its range ring updated. */
  function IndicateAll(heroX: real, ms: seq<Minion>): seq<Minion> {
    seq(|ms|, j requires 0 <= j < |ms| => Indicate(heroX, ms[j]))
  }

  /** `handleEnemyIndicators` over the whole array. */
  method HandleEnemyIndicators(hero: Hero, minions: MinionList)
    modifies minions
    ensures |minions.items| == |old(minions.items)|
    ensures forall j :: 0 <= j < |minions.items| ==> minions.items[j] == Indicate(hero.x, old(minions.items)[j])
  {
    ghost var original := minions.items;
    var i := 0;
    while i < |minions.items|
      invariant 0 <= i <= |minions.items| == |original|
      invariant forall j :: 0 <= j < i ==> minions.items[j] == Indicate(hero.x, original[j])
      invariant forall j :: i <= j < |original| ==> minions.items[j] == original[j]
    {
      var minion := minions.items[i];
      if minion.active {
        var distance := Abs(hero.x - minion.groupPosition.x);
        if distance < AttackRange {
          minion := minion.(indicator := Some(true));
        } else if minion.indicator.Some? {
          minion := minion.(indicator := Some(false));
        }
        minions.items := minions.items[i := minion];
      }
      i := i + 1;
    }
  }

  // ---------------------------------------------------------------------
  // The frame

  /** What a frame hands on: whether it opened the quiz, whether it
      scheduled the death reset or the full restart, the level of a wave it
      scheduled, a smoke bomb it respawned, and whether an exception cut it
      short (the level transition after a clearing attack, or a minion's
      update). */
  datatype TickEvents = TickEvents(quizShown: bool, deathReset: bool, restart: bool,
                                   wave: Option<int>, respawned: Option<Collectible>, aborted: bool)

  const NoEvents: TickEvents := TickEvents(false, false, false, None, None, false)

  /** The death trigger, the fall trigger when no rooftop supports the
      hero at or below roof height, and the floor clamp. */
  method FallAndClamp(hero: Hero, current: Option<nat>) returns (deathReset: bool, restart: bool)
    modifies hero`falling, hero`grounded, hero`y, hero`vy
    ensures deathReset <==> hero.health <= 0 && !old(hero.falling)
    ensures restart <==> !deathReset && !old(hero.falling) && current.None? && old(hero.y) <= GroundY
    ensures hero.falling == (old(hero.falling) || deathReset || restart)
    ensures var v := Vertical(old(hero.y), old(hero.vy), old(hero.grounded));
            Vertical(hero.y, hero.vy, hero.grounded)
            == Settle(if deathReset || restart then v.(grounded := false) else v, hero.falling)
  {
    deathReset := false;
    if hero.health <= 0 && !hero.falling {
      hero.falling := true;
      hero.grounded := false;
      deathReset := true;
    }

    restart := false;
    if current.None? && !hero.falling && hero.y <= GroundY {
      hero.falling := true;
      hero.grounded := false;
      restart := true;
    }

    if hero.y < GroundY && !hero.falling {
      hero.y := GroundY;
      hero.vy := 0.0;
      hero.grounded := true;
    }
  }

  /** The hero's half of a frame: movement, the support lookup, the death
      and fall triggers, the floor clamp and the turn towards the villain.
      Returns the quiz, death and fall events and the supporting rooftop;
      `moved` is the vertical state right after the movement step, which
      the clamp then settles. */
  method HeroPhase(hero: Hero, gs: GameState, keys: KeyFlags, bomb: Collectible,
                   roofs: seq<Rooftop>, now: int)
    returns (quizShown: bool, deathReset: bool, restart: bool, current: Option<nat>, ghost moved: Vertical)
    modifies hero`x, hero`y, hero`vx, hero`vy, hero`grounded, hero`isDodging, hero`dodgeStartTime,
             hero`lastDodge, hero`dodgeDirection, hero`isInvulnerable, hero`lastHit, hero`invulnerableTime,
             hero`hasReachedSecondRooftop, hero`falling, hero`facingRight,
             gs`movementLocked, bomb`collected, bomb`visible
    ensures old(hero.hasReachedSecondRooftop) ==> hero.hasReachedSecondRooftop
    ensures old(hero.falling) ==> hero.falling
    ensures !hero.falling ==> hero.y >= GroundY
    ensures deathReset <==> old(hero.health) <= 0 && !old(hero.falling)
    ensures restart <==> !deathReset && !old(hero.falling) && current.None? && old(hero.health) > 0
                         && hero.falling && hero.y <= GroundY
    ensures deathReset || restart ==> hero.falling && !hero.grounded
    ensures quizShown ==> bomb.collected && gs.movementLocked
    ensures old(bomb.collected) ==> bomb.collected
    ensures hero.facingRight == (hero.x < VillainX)
    ensures gs.gamePhase == Gameplay && !old(gs.movementLocked) ==>
              moved == FreeFall(Vertical(old(hero.y), old(hero.vy), old(hero.grounded)), keys.jump,
                                InBoostZone(roofs, old(hero.x), old(hero.z)))
    ensures !(gs.gamePhase == Gameplay && !old(gs.movementLocked)) ==>
              moved == Vertical(old(hero.y), 0.0, old(hero.grounded))
    ensures hero.falling == (old(hero.falling) || deathReset || restart)
    ensures Vertical(hero.y, hero.vy, hero.grounded)
         == Settle(if deathReset || restart then moved.(grounded := false) else moved, hero.falling)
    ensures current == SupportId(roofs, hero.x, hero.z)
  {
    quizShown := MoveHero(hero, gs, keys, bomb, roofs, now);
    moved := Vertical(hero.y, hero.vy, hero.grounded);
    current := Support(hero, roofs);

    deathReset, restart := FallAndClamp(hero, current);

    hero.facingRight := hero.x < VillainX;
  }

  /** The range rings change no minion's range, health or activity, so
      they change neither count an attack depends on. */
  lemma {:induction false} IndicatorsKeepCounts(ms: seq<Minion>, ms': seq<Minion>, heroX: real)
    requires |ms'| == |ms| && forall j :: 0 <= j < |ms| ==> ms'[j] == Indicate(heroX, ms[j])
    ensures CountInRange(ms', heroX) == CountInRange(ms, heroX)
    ensures CountDefeated(ms', heroX) == CountDefeated(ms, heroX)
    decreases |ms|
  {
    if ms != [] {
      assert ms'[0] == Indicate(heroX, ms[0]);
      IndicatorsKeepCounts(ms[1..], ms'[1..], heroX);
    }
  }

  /** The combat half of a frame: the range rings, the hero's attack when
      the attack key is held during free play, the minions' attacks, and the
      end of the hero's invulnerability. An attack that empties the array on
      level 1 or 2 throws in the level transition (`cleared`), and a
      minion's update can throw too; either ends the frame (`aborted`). */
  method CombatPhase(hero: Hero, gs: GameState, keys: KeyFlags, minions: MinionList, now: int, roll: real)
    returns (respawned: Option<Collectible>, cleared: bool, aborted: bool)
    requires 0.0 <= roll < 1.0
    modifies hero`lastAttack, hero`health, hero`smokeBombsCount, hero`lastSmokeBombRespawn,
             hero`lastHit, hero`isInvulnerable, minions
    ensures hero.smokeBombsCount == old(hero.smokeBombsCount) || hero.smokeBombsCount == old(hero.smokeBombsCount) - 1
    ensures old(hero.smokeBombsCount) >= 0 ==> hero.smokeBombsCount >= 0
    ensures !(gs.gamePhase == Gameplay && keys.attack && !gs.movementLocked) ==>
              respawned == None && hero.smokeBombsCount == old(hero.smokeBombsCount) && !cleared
    ensures cleared <==>
              gs.gamePhase == Gameplay && keys.attack && !gs.movementLocked
              && AttackReady(old(hero.lastAttack), old(hero.hasSmokeAttack), old(hero.smokeBombsCount), now)
              && ClearsLevel(gs.currentLevel)
              && Advances(gs.minionsFought, CountDefeated(old(minions.items), hero.x))
    ensures cleared ==>
              aborted && respawned == None && minions.items == [] && hero.health == 100
              && hero.lastAttack == now && hero.smokeBombsCount == old(hero.smokeBombsCount)
              && hero.lastHit == old(hero.lastHit) && hero.isInvulnerable == old(hero.isInvulnerable)
    ensures !cleared ==>
              var attacked := gs.gamePhase == Gameplay && keys.attack && !gs.movementLocked
                              && AttackReady(old(hero.lastAttack), old(hero.hasSmokeAttack), old(hero.smokeBombsCount), now);
              NextCombat(old(minions.items), hero.x, attacked, gs.minionsFought,
                         Fighter(old(hero.health), old(hero.lastHit), old(hero.isInvulnerable),
                                 old(hero.lastAttack), old(hero.smokeBombsCount)),
                         hero.invulnerableTime, now)
              == CombatResult(minions.items, Fighter(hero.health, hero.lastHit, hero.isInvulnerable,
                                                     hero.lastAttack, hero.smokeBombsCount), aborted)
              && (respawned.Some? <==>
                    hero.smokeBombsCount < old(hero.smokeBombsCount) && hero.smokeBombsCount <= 0
                    && now - old(hero.lastSmokeBombRespawn) > hero.smokeBombRespawnCooldown)
  {
    ghost var ms0 := minions.items;
    HandleEnemyIndicators(hero, minions);
    IndicatorsKeepCounts(ms0, minions.items, hero.x);
    assert minions.items == IndicateAll(hero.x, ms0);

    respawned := None;
    cleared := false;
    if gs.gamePhase == Gameplay && keys.attack && !gs.movementLocked {
      respawned, cleared := ProcessHeroAttack(hero, minions, gs.minionsFought, gs.currentLevel, now, roll);
    }
    if cleared {
      aborted := true;
      return;
    }

    aborted := UpdateMinions(hero, minions, now);
    if aborted {
      return;
    }

    HandleHeroInvulnerability(hero, now);
  }

  /** The rest of a frame after the hero has moved: the trail decays, the
      wave is scheduled the first time the hero stands on rooftop 1
      (`current` is its support), and the combat step runs. */
  method WaveAndCombat(hero: Hero, gs: GameState, keys: KeyFlags, minions: MinionList, trail: ParticleTrail,
                       current: Option<nat>, now: int, roll: real)
    returns (wave: Option<int>, respawned: Option<Collectible>, aborted: bool)
    requires 0.0 <= roll < 1.0
    modifies hero`lastAttack, hero`health, hero`smokeBombsCount, hero`lastSmokeBombRespawn,
             hero`lastHit, hero`isInvulnerable, minions, trail, gs`minionsSpawned
    ensures trail.particles == Survivors(old(trail.particles))
    ensures wave.Some? <==> !old(gs.minionsSpawned) && current == Some(1)
    ensures gs.minionsSpawned == (old(gs.minionsSpawned) || wave.Some?)
    ensures wave.Some? ==> wave.value == gs.currentLevel
    ensures hero.smokeBombsCount == old(hero.smokeBombsCount) || hero.smokeBombsCount == old(hero.smokeBombsCount) - 1
    ensures old(hero.smokeBombsCount) >= 0 ==> hero.smokeBombsCount >= 0
  {
    trail.Update();

    wave := None;
    if current == Some(1) && !gs.minionsSpawned {
      wave := Some(gs.currentLevel);
      gs.minionsSpawned := true;
    }

    var cleared;
    respawned, cleared, aborted := CombatPhase(hero, gs, keys, minions, now, roll);
  }

  /** `animate`: one frame at time `now`, `elapsed` milliseconds after the
      previous one; `roll` is the random draw a respawned smoke bomb would
      use. */
  method Animate(hero: Hero, gs: GameState, keys: KeyFlags, minions: MinionList, trail: ParticleTrail,
                 bomb: Collectible, roofs: seq<Rooftop>, elapsed: real, now: int, roll: real)
    returns (events: TickEvents)
    requires 0.0 <= roll < 1.0
    modifies hero, gs`movementLocked, gs`minionsSpawned, minions, trail, bomb`collected, bomb`visible
    ensures FrameSkipped(elapsed) ==>
              unchanged(hero) && unchanged(gs) && unchanged(minions) && unchanged(trail) && unchanged(bomb)
              && events == NoEvents
    ensures gs.gamePhase == old(gs.gamePhase)
    ensures gs.minionsFought == old(gs.minionsFought) && gs.currentLevel == old(gs.currentLevel)
    ensures old(hero.hasReachedSecondRooftop) ==> hero.hasReachedSecondRooftop
    ensures old(hero.falling) ==> hero.falling
    ensures !FrameSkipped(elapsed) && !hero.falling ==> hero.y >= GroundY
    ensures events.deathReset <==> !FrameSkipped(elapsed) && old(hero.health) <= 0 && !old(hero.falling)
    ensures events.restart ==> hero.falling && !old(hero.falling) && !events.deathReset
    ensures events.wave.Some? <==>
              !FrameSkipped(elapsed) && !old(gs.minionsSpawned) && SupportId(roofs, hero.x, hero.z) == Some(1)
    ensures gs.minionsSpawned == (old(gs.minionsSpawned) || events.wave.Some?)
    ensures events.wave.Some? ==> events.wave.value == gs.currentLevel
    ensures events.quizShown ==> bomb.collected && gs.movementLocked
    ensures old(bomb.collected) ==> bomb.collected
    ensures hero.smokeBombsCount == old(hero.smokeBombsCount) || hero.smokeBombsCount == old(hero.smokeBombsCount) - 1
    ensures old(hero.smokeBombsCount) >= 0 ==> hero.smokeBombsCount >= 0
    ensures !FrameSkipped(elapsed) ==> trail.particles == Survivors(old(trail.particles))
  {
    events := NoEvents;
    if FrameSkipped(elapsed) {
      return;
    }
    var quizShown, deathReset, restart, current, moved := HeroPhase(hero, gs, keys, bomb, roofs, now);


    var wave, respawned, aborted := WaveAndCombat(hero, gs, keys, minions, trail, current, now, roll);
    events := TickEvents(quizShown, deathReset, restart, wave, respawned, aborted);
  }

  // ---------------------------------------------------------------------
  // Deferred events

  /** The timer body scheduled by a death: the hero is restored at the
      start, briefly invulnerable. */
  method DeathReset(hero: Hero, now: int)
    modifies hero`health, hero`x, hero`y, hero`z, hero`vx, hero`vy, hero`falling, hero`grounded,
             hero`isInvulnerable, hero`lastHit
    ensures hero.health == 100 && hero.x == 0.0 && hero.y == GroundY && hero.z == 0.0
    ensures hero.vx == 0.0 && hero.vy == 0.0 && !hero.falling && hero.grounded
    ensures hero.isInvulnerable && hero.lastHit == now
  {
    hero.health := 100;
    hero.x, hero.y, hero.z := 0.0, GroundY, 0.0;
    hero.vx, hero.vy := 0.0, 0.0;
    hero.falling := false;
    hero.grounded := true;
    hero.isInvulnerable := true;
    hero.lastHit := now;
  }

  /** The timer body scheduled by a fall: the hero is restored as after a
      death and also stops dodging, the wave is removed and may spawn again,
      the defeat count is reset, and play resumes locked until the villain's
      fade completes (`Controls.VillainFadeComplete`). */
  method FallRestart(hero: Hero, gs: GameState, minions: MinionList, now: int)
    modifies hero`health, hero`x, hero`y, hero`z, hero`vx, hero`vy, hero`falling, hero`grounded,
             hero`isInvulnerable, hero`lastHit, hero`isDodging, hero`lastDodge,
             gs`minionsSpawned, gs`minionsFought, gs`gamePhase, gs`movementLocked, minions
    ensures hero.health == 100 && hero.x == 0.0 && hero.y == GroundY && hero.z == 0.0
    ensures hero.vx == 0.0 && hero.vy == 0.0 && !hero.falling && hero.grounded
    ensures hero.isInvulnerable && hero.lastHit == now && !hero.isDodging && hero.lastDodge == 0
    ensures minions.items == []
    ensures !gs.minionsSpawned && gs.minionsFought == 0 && gs.gamePhase == Gameplay && gs.movementLocked
  {
    hero.x, hero.y, hero.z := 0.0, GroundY, 0.0;
    hero.vx, hero.vy := 0.0, 0.0;
    hero.falling := false;
    hero.grounded := true;
    hero.health := 100;
    hero.isInvulnerable := true;
    hero.lastHit := now;
    hero.isDodging := false;
    hero.lastDodge := 0;
    minions.items := [];
    gs.minionsSpawned := false;
    gs.minionsFought := 0;
    gs.gamePhase := Gameplay;
    gs.movementLocked := true;
  }
}
