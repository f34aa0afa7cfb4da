/** Combat in the frame loop: the hero's smoke-bomb attack on the minion
    wave, a minion's defeat and the level transition it may trigger, the
    minions' own attacks on the hero, and the expiry of the hero's
    invulnerability. */
module Combat {
  import opened Common
  import opened MinionEntity
  import opened HeroEntity
  import opened SmokeBomb

  const AttackRange: real := 5.0
  const AttackCooldown: int := 500
  const AttackDamage: int := 25
  /** Defeats needed on the second rooftop before the level advances. */
  const WaveSize: int := 3
  const MeleeRange: real := 2.5
  const MeleeDamage: int := 10
  const RangedRange: real := 15.0

  // ---------------------------------------------------------------------
  // The hero's attack

  /** The gate of `processHeroAttack`: off cooldown and holding a bomb. */
  predicate AttackReady(lastAttack: int, hasSmokeAttack: bool, smokeBombsCount: int, now: int) {
    now - lastAttack > AttackCooldown && hasSmokeAttack && smokeBombsCount > 0
  }

  /** An active minion whose group is within attack range of the hero. */
  predicate InAttackRange(heroX: real, m: Minion) {
    m.active && Abs(heroX - m.groupPosition.x) < AttackRange
  }

  /** What one hit does to a minion: 25 health off, and the defeat (inactive
      and hidden) once its health is at or below zero. */
  function Strike(m: Minion): (r: Minion)
    ensures r.health == m.health - AttackDamage
    ensures r.active == (m.active && r.health > 0)
    ensures r.visible == (m.visible && r.health > 0)
    ensures r.(health := m.health, active := m.active, visible := m.visible) == m
  {
    var hurt := m.(health := m.health - AttackDamage);
    if hurt.health <= 0 then hurt.(active := false, visible := false) else hurt
  }

  /** A minion this attack defeats. */
  predicate Defeated(heroX: real, m: Minion) {
    InAttackRange(heroX, m) && m.health <= AttackDamage
  }

  /** Reference for one attack on a wave that is not cleared: every minion in
      range is struck once and every other minion is left as it was. */
  function StrikeAll(ms: seq<Minion>, heroX: real): (r: seq<Minion>)
    ensures |r| == |ms|
  {
    if ms == [] then []
    else [if InAttackRange(heroX, ms[0]) then Strike(ms[0]) else ms[0]] + StrikeAll(ms[1..], heroX)
  }

  /** Minion by minion: those in range are struck once, the others are
      left exactly as they were. */
  lemma {:induction false} StrikeAllPointwise(ms: seq<Minion>, heroX: real)
    ensures forall j :: 0 <= j < |ms| ==>
              StrikeAll(ms, heroX)[j] == (if InAttackRange(heroX, ms[j]) then Strike(ms[j]) else ms[j])
  {
    if ms != [] {
      StrikeAllPointwise(ms[1..], heroX);
      forall j | 1 <= j < |ms|
        ensures StrikeAll(ms, heroX)[j] == StrikeAll(ms[1..], heroX)[j - 1]
      {
      }
    }
  }

  /** How many minions an attack from `heroX` reaches. */
  function CountInRange(ms: seq<Minion>, heroX: real): nat {
    if ms == [] then 0
    else (if InAttackRange(heroX, ms[0]) then 1 else 0) + CountInRange(ms[1..], heroX)
  }

  /** How many minions an attack from `heroX` defeats. */
  function CountDefeated(ms: seq<Minion>, heroX: real): nat {
    if ms == [] then 0
    else (if Defeated(heroX, ms[0]) then 1 else 0) + CountDefeated(ms[1..], heroX)
  }

  /** Whether the `minionsFought + 1 === 3` test fires during an attack that
      starts from the count `fought` and defeats `defeats` minions. */
  predicate Advances(fought: int, defeats: nat) {
    fought < WaveSize && fought + defeats >= WaveSize
  }

  /** The levels whose transition empties the minion array. */
  predicate ClearsLevel(level: int) {
    level == 1 || level == 2
  }

  /** What is left of an attack once the array has been walked: the array,
      whether any minion was hit, the local defeat count, whether the
      hero's health was restored, and whether the level transition emptied
      the array (and then threw, see `AdvanceToNextLevel`). */
  datatype Outcome = Outcome(minions: seq<Minion>, hit: bool, fought: int, healed: bool, cleared: bool)

  /** The `forEach` of `processHeroAttack` from index `i` on, step by step
      as the source takes it: a defeat that carries the local count to 3
      restores the hero and, on levels 1 and 2, empties the array and ends
      the walk with the level transition's exception. */
  function SweepFrom(ms: seq<Minion>, i: nat, heroX: real, fought: int, level: int,
                     hit: bool, healed: bool): Outcome
    decreases |ms| - i
  {
    if i >= |ms| then Outcome(ms, hit, fought, healed, false)
    else if !InAttackRange(heroX, ms[i]) then SweepFrom(ms, i + 1, heroX, fought, level, hit, healed)
    else
      var struck := Strike(ms[i]);
      if struck.health > 0 then
        SweepFrom(ms[i := struck], i + 1, heroX, fought, level, true, healed)
      else if fought + 1 == WaveSize && ClearsLevel(level) then
        Outcome([], true, fought + 1, true, true)
      else
        SweepFrom(ms[i := struck], i + 1, heroX, fought + 1, level, true, healed || fought + 1 == WaveSize)
  }

  /** One minion off the front of the references. */
  lemma UnfoldAt(ms: seq<Minion>, i: nat, heroX: real)
    requires i < |ms|
    ensures CountInRange(ms[i..], heroX) == (if InAttackRange(heroX, ms[i]) then 1 else 0) + CountInRange(ms[i + 1..], heroX)
    ensures CountDefeated(ms[i..], heroX) == (if Defeated(heroX, ms[i]) then 1 else 0) + CountDefeated(ms[i + 1..], heroX)
    ensures StrikeAll(ms[i..], heroX)
         == [if InAttackRange(heroX, ms[i]) then Strike(ms[i]) else ms[i]] + StrikeAll(ms[i + 1..], heroX)
  {
    assert ms[i..][0] == ms[i];
    assert ms[i..][1..] == ms[i + 1..];
  }

  /** The outcome `o` of a walk from index `i` agrees with the reference: it
      hits exactly when something from `i` on is in range, restores health
      exactly when the defeats carry the count to 3, empties the array
      exactly when that happens on level 1 or 2, and otherwise strikes every
      minion in range from `i` on and leaves the rest. */
  ghost predicate MeetsReference(o: Outcome, ms: seq<Minion>, i: nat, heroX: real, fought: int, level: int,
                                 hit: bool, healed: bool)
    requires i <= |ms|
  {
    var d := CountDefeated(ms[i..], heroX);
    && o.hit == (hit || CountInRange(ms[i..], heroX) > 0)
    && o.healed == (healed || Advances(fought, d))
    && o.cleared == (ClearsLevel(level) && Advances(fought, d))
    && (o.cleared ==> o.minions == [])
    && (!(ClearsLevel(level) && Advances(fought, d)) ==>
          o.minions == ms[..i] + StrikeAll(ms[i..], heroX) && o.fought == fought + d)
  }

  lemma {:induction false} SweepFromSpec(ms: seq<Minion>, i: nat, heroX: real, fought: int, level: int,
                                         hit: bool, healed: bool)
    requires i <= |ms|
    ensures MeetsReference(SweepFrom(ms, i, heroX, fought, level, hit, healed), ms, i, heroX, fought, level, hit, healed)
    decreases |ms| - i
  {
    var o := SweepFrom(ms, i, heroX, fought, level, hit, healed);
    if i == |ms| {
      assert ms[i..] == [];
      assert ms[..i] == ms;
    } else if !InAttackRange(heroX, ms[i]) {
      SweepFromSpec(ms, i + 1, heroX, fought, level, hit, healed);
      SkipStep(o, ms, i, heroX, fought, level, hit, healed);
    } else if ms[i].health > AttackDamage {
      SweepFromSpec(ms[i := Strike(ms[i])], i + 1, heroX, fought, level, true, healed);
      StrikeStep(o, ms, i, heroX, fought, level, hit, healed);
    } else if fought + 1 == WaveSize && ClearsLevel(level) {
      ClearStep(o, ms, i, heroX, fought, level, hit, healed);
    } else {
      SweepFromSpec(ms[i := Strike(ms[i])], i + 1, heroX, fought + 1, level, true, healed || fought + 1 == WaveSize);
      DefeatStep(o, ms, i, heroX, fought, level, hit, healed);
    }
  }

  lemma SkipStep(o: Outcome, ms: seq<Minion>, i: nat, heroX: real, fought: int, level: int, hit: bool, healed: bool)
    requires i < |ms| && !InAttackRange(heroX, ms[i])
    requires MeetsReference(o, ms, i + 1, heroX, fought, level, hit, healed)
    ensures MeetsReference(o, ms, i, heroX, fought, level, hit, healed)
  {
    StepFacts(ms, i, heroX);
    assert ms[i := ms[i]] == ms;
  }

  /** Replacing minion `i` by what the attack makes of it leaves the rest of
      the walk's input alone and moves one minion from the reference's tail
      into the finished prefix. */
  lemma StepFacts(ms: seq<Minion>, i: nat, heroX: real)
    requires i < |ms|
    ensures var x := if InAttackRange(heroX, ms[i]) then Strike(ms[i]) else ms[i];
            var ms' := ms[i := x];
            && ms'[i + 1..] == ms[i + 1..]
            && ms'[..i + 1] + StrikeAll(ms[i + 1..], heroX) == ms[..i] + StrikeAll(ms[i..], heroX)
            && CountInRange(ms[i..], heroX) == (if InAttackRange(heroX, ms[i]) then 1 else 0) + CountInRange(ms[i + 1..], heroX)
            && CountDefeated(ms[i..], heroX) == (if Defeated(heroX, ms[i]) then 1 else 0) + CountDefeated(ms[i + 1..], heroX)
  {
    var x := if InAttackRange(heroX, ms[i]) then Strike(ms[i]) else ms[i];
    UnfoldAt(ms, i, heroX);
    UpdateSlices(ms, i, x);
    assert (ms[..i] + [x]) + StrikeAll(ms[i + 1..], heroX) == ms[..i] + ([x] + StrikeAll(ms[i + 1..], heroX));
  }

  lemma UpdateSlices<T>(s: seq<T>, i: nat, x: T)
    requires i < |s|
    ensures s[i := x][i + 1..] == s[i + 1..]
    ensures s[i := x][..i + 1] == s[..i] + [x]
  {
  }

  lemma StrikeStep(o: Outcome, ms: seq<Minion>, i: nat, heroX: real, fought: int, level: int, hit: bool, healed: bool)
    requires i < |ms| && InAttackRange(heroX, ms[i]) && ms[i].health > AttackDamage
    requires MeetsReference(o, ms[i := Strike(ms[i])], i + 1, heroX, fought, level, true, healed)
    ensures MeetsReference(o, ms, i, heroX, fought, level, hit, healed)
  {
    StepFacts(ms, i, heroX);
  }

  lemma ClearStep(o: Outcome, ms: seq<Minion>, i: nat, heroX: real, fought: int, level: int, hit: bool, healed: bool)
    requires i < |ms| && InAttackRange(heroX, ms[i]) && ms[i].health <= AttackDamage
    requires fought + 1 == WaveSize && ClearsLevel(level)
    requires o == Outcome([], true, fought + 1, true, true)
    ensures MeetsReference(o, ms, i, heroX, fought, level, hit, healed)
  {
    StepFacts(ms, i, heroX);
  }

  lemma DefeatStep(o: Outcome, ms: seq<Minion>, i: nat, heroX: real, fought: int, level: int, hit: bool, healed: bool)
    requires i < |ms| && InAttackRange(heroX, ms[i]) && ms[i].health <= AttackDamage
    requires !(fought + 1 == WaveSize && ClearsLevel(level))
    requires MeetsReference(o, ms[i := Strike(ms[i])], i + 1, heroX, fought + 1, level, true,
                            healed || fought + 1 == WaveSize)
    ensures MeetsReference(o, ms, i, heroX, fought, level, hit, healed)
  {
    StepFacts(ms, i, heroX);
  }

  /** A whole attack, from the start of the array. */
  lemma AttackOutcome(ms: seq<Minion>, heroX: real, fought: int, level: int)
    ensures var o := SweepFrom(ms, 0, heroX, fought, level, false, false);
            var d := CountDefeated(ms, heroX);
            && o.hit == (CountInRange(ms, heroX) > 0)
            && o.healed == Advances(fought, d)
            && o.cleared == (ClearsLevel(level) && Advances(fought, d))
            && o.minions == (if o.cleared then [] else StrikeAll(ms, heroX))
  {
    SweepFromSpec(ms, 0, heroX, fought, level, false, false);
    assert ms[0..] == ms;
    assert ms[..0] == [];
  }

  /** `advanceToNextLevel`. Levels 1 and 2 empty the minion array and then
      reset a `minionsFought` that is neither a parameter nor declared in
      the module. Module code is strict, so that assignment throws:
      `aborted` reports it, and the level-2 wave the level-1 branch would
      schedule next is never scheduled. The new level is only ever assigned
      to the parameter, which is what `level` returns and what the caller
      drops. Other levels change nothing. */
  method AdvanceToNextLevel(currentLevel: int, minions: MinionList) returns (level: int, aborted: bool)
    modifies minions
    ensures aborted <==> ClearsLevel(currentLevel)
    ensures currentLevel == 1 ==> level == 2
    ensures currentLevel == 2 ==> level == 3
    ensures ClearsLevel(currentLevel) ==> minions.items == []
    ensures !ClearsLevel(currentLevel) ==> level == currentLevel && minions.items == old(minions.items)
  {
    level := currentLevel;
    aborted := false;
    if currentLevel == 1 {
      level := 2;
      minions.items := [];
      aborted := true;
    } else if currentLevel == 2 {
      level := 3;
      minions.items := [];
      aborted := true;
    }
  }

  /** `defeatedMinion`: hide and deactivate the minion; when its copy of the
      defeat count reaches 3, restore the hero and advance the level, which
      on levels 1 and 2 throws (`aborted`). */
  method DefeatedMinion(hero: Hero, minions: MinionList, i: nat, minionsFought: int, currentLevel: int)
    returns (aborted: bool)
    requires i < |minions.items|
    modifies hero`health, minions
    ensures aborted <==> minionsFought + 1 == WaveSize && ClearsLevel(currentLevel)
    ensures aborted ==> minions.items == []
    ensures !aborted ==>
              minions.items == old(minions.items)[i := old(minions.items)[i].(active := false, visible := false)]
    ensures hero.health == if minionsFought + 1 == WaveSize then 100 else old(hero.health)
  {
    minions.items := minions.items[i := minions.items[i].(active := false)];
    minions.items := minions.items[i := minions.items[i].(visible := false)];
    aborted := false;
    if minionsFought + 1 == WaveSize {
      hero.health := 100;
      var dropped;
      dropped, aborted := AdvanceToNextLevel(currentLevel, minions);
    }
  }

  /** `processHeroAttack`, called with by-value copies of the game state's
      defeat count and level; `roll` is the random draw a respawned bomb
      uses. When a defeat empties the array on level 1 or 2 the exception
      leaves the attack at once (`aborted`): no bomb is spent and none
      respawns. */
  method ProcessHeroAttack(hero: Hero, minions: MinionList, minionsFought: int, currentLevel: int,
                           now: int, roll: real) returns (respawned: Option<Collectible>, aborted: bool)
    requires 0.0 <= roll < 1.0
    modifies hero`lastAttack, hero`health, hero`smokeBombsCount, hero`lastSmokeBombRespawn, minions
    ensures !AttackReady(old(hero.lastAttack), old(hero.hasSmokeAttack), old(hero.smokeBombsCount), now) ==>
              unchanged(hero) && unchanged(minions) && respawned == None && !aborted
    ensures AttackReady(old(hero.lastAttack), old(hero.hasSmokeAttack), old(hero.smokeBombsCount), now) ==>
              var ms := old(minions.items);
              var hit := CountInRange(ms, hero.x) > 0;
              var advance := Advances(minionsFought, CountDefeated(ms, hero.x));
              && (aborted <==> advance && ClearsLevel(currentLevel))
              && hero.lastAttack == (if hit then now else old(hero.lastAttack))
              && hero.health == (if advance then 100 else old(hero.health))
              && minions.items == (if aborted then [] else StrikeAll(ms, hero.x))
              && hero.smokeBombsCount == (if hit && !aborted then old(hero.smokeBombsCount) - 1 else old(hero.smokeBombsCount))
              && (respawned.Some? <==>
                    hit && !aborted && hero.smokeBombsCount <= 0
                    && now - old(hero.lastSmokeBombRespawn) > hero.smokeBombRespawnCooldown)
    ensures aborted ==> hero.lastAttack == now && hero.health == 100 && minions.items == []
    ensures hero.lastSmokeBombRespawn == (if respawned.Some? then now else old(hero.lastSmokeBombRespawn))
    ensures old(hero.smokeBombsCount) >= 0 ==> hero.smokeBombsCount >= 0
    ensures respawned.Some? ==>
              fresh(respawned.value) && -5.0 <= respawned.value.x < 10.0 && respawned.value.y == 1.5
              && !respawned.value.collected && respawned.value.visible
  {
    respawned := None;
    aborted := false;
    if !(now - hero.lastAttack > AttackCooldown && hero.hasSmokeAttack && hero.smokeBombsCount > 0) {
      return;
    }
    ghost var ms0 := minions.items;
    var fought := minionsFought;
    var hasAttacked := false;
    ghost var healed := false;
    var i := 0;
    while i < |minions.items|
      invariant i <= |minions.items|
      invariant SweepFrom(minions.items, i, hero.x, fought, currentLevel, hasAttacked, healed)
             == SweepFrom(ms0, 0, hero.x, minionsFought, currentLevel, false, false)
      invariant hero.health == if healed then 100 else old(hero.health)
      invariant hero.lastAttack == if hasAttacked then now else old(hero.lastAttack)
      invariant hero.smokeBombsCount == old(hero.smokeBombsCount)
      invariant hero.lastSmokeBombRespawn == old(hero.lastSmokeBombRespawn)
      decreases |minions.items| - i
    {
      ghost var before := minions.items;
      var minion := minions.items[i];
      if minion.active && Abs(hero.x - minion.groupPosition.x) < AttackRange {
        hasAttacked := true;
        hero.lastAttack := now;
        minion := minion.(health := minion.health - AttackDamage);
        minions.items := minions.items[i := minion];
        if minion.health <= 0 {
          aborted := DefeatedMinion(hero, minions, i, fought, currentLevel);
          if aborted {
            AttackOutcome(ms0, hero.x, minionsFought, currentLevel);
            return;
          }
          assert minions.items == before[i := Strike(before[i])];
          healed := healed || fought + 1 == WaveSize;
          fought := fought + 1;
        } else {
          assert minions.items == before[i := Strike(before[i])];
        }
      }
      i := i + 1;
    }
    AttackOutcome(ms0, hero.x, minionsFought, currentLevel);
    if hasAttacked {
      hero.smokeBombsCount := hero.smokeBombsCount - 1;
      if hero.smokeBombsCount <= 0 {
        if now - hero.lastSmokeBombRespawn > hero.smokeBombRespawnCooldown {
          var bomb := new Collectible.Respawned(roll);
          respawned := Some(bomb);
          hero.lastSmokeBombRespawn := now;
        }
      }
    }
  }

  // ---------------------------------------------------------------------
  // The defeat count as written and as intended

  /** No-one can stand within attack range of two minions ten apart. */
  lemma RangeExcludesTenApart(heroX: real, a: Minion, b: Minion)
    requires b.groupPosition.x - a.groupPosition.x >= 2.0 * AttackRange
    ensures !(InAttackRange(heroX, a) && InAttackRange(heroX, b))
  {
  }

  lemma {:induction false} DefeatedAtMostInRange(ms: seq<Minion>, heroX: real)
    ensures CountDefeated(ms, heroX) <= CountInRange(ms, heroX)
  {
    if ms != [] {
      DefeatedAtMostInRange(ms[1..], heroX);
    }
  }

  lemma {:induction false} InRangeAtMostLength(ms: seq<Minion>, heroX: real)
    ensures CountInRange(ms, heroX) <= |ms|
  {
    if ms != [] {
      InRangeAtMostLength(ms[1..], heroX);
    }
  }

  /** The horizontal slot of the `i`-th minion of a wave: 30, 35 and 40. */
  function WaveX(i: nat): (x: real)
    requires i < 3
    ensures x == 30.0 + 5.0 * i as real
  {
    35.0 + (i as real - 1.0) * 5.0
  }

  /** A wave laid out as `spawnMinions` lays it out, minions possibly missing
      from the end because their timers have not fired yet. */
  predicate StandardWave(ms: seq<Minion>) {
    |ms| <= 3 && forall j :: 0 <= j < |ms| ==> ms[j].groupPosition.x == WaveX(j)
  }

  /** As written, an attack on the wave never reaches the third-defeat
      branch: the count each attack starts from is the game state's, which
      stays 0, and one attack reaches at most two minions of a standard
      wave. So health is never restored and the array never emptied. */
  lemma StandardWaveNeverAdvances(ms: seq<Minion>, heroX: real, level: int)
    requires StandardWave(ms)
    ensures CountDefeated(ms, heroX) <= 2
    ensures var o := SweepFrom(ms, 0, heroX, 0, level, false, false);
            !o.healed && !o.cleared && o.minions == StrikeAll(ms, heroX)
  {
    DefeatedAtMostInRange(ms, heroX);
    InRangeAtMostLength(ms, heroX);
    if |ms| == 3 {
      RangeExcludesTenApart(heroX, ms[0], ms[2]);
      UnfoldAt(ms, 0, heroX);
      UnfoldAt(ms, 1, heroX);
      UnfoldAt(ms, 2, heroX);
      assert ms[0..] == ms && ms[3..] == [];
    }
    AttackOutcome(ms, heroX, 0, level);
  }

  /** How often the third-defeat branch fires over a series of attacks when
      the defeat count is passed by value from a game state that always
      holds `start`: `defeats[k]` is what attack `k` defeats. */
  function AdvancesAsWritten(start: int, defeats: seq<nat>): nat {
    if defeats == [] then 0
    else (if Advances(start, defeats[0]) then 1 else 0) + AdvancesAsWritten(start, defeats[1..])
  }

  /** The same with the evidently intended bookkeeping: the defeat count
      persists from one attack to the next. */
  function AdvancesPersistent(fought: int, defeats: seq<nat>): nat
    decreases defeats
  {
    if defeats == [] then 0
    else (if Advances(fought, defeats[0]) then 1 else 0) + AdvancesPersistent(fought + defeats[0], defeats[1..])
  }

  function Sum(s: seq<nat>): nat {
    if s == [] then 0 else s[0] + Sum(s[1..])
  }

  /** Three attacks of one defeat each, on the count as written: the
      third-defeat branch never fires. */
  lemma OneAtATimeNeverAdvances()
    ensures Sum([1, 1, 1]) == WaveSize
    ensures AdvancesAsWritten(0, [1, 1, 1]) == 0
  {
    assert [1, 1, 1][1..] == [1, 1];
    assert [1, 1][1..] == [1];
    assert [1][1..] == [];
  }

  /** With a persistent count, the third-defeat branch fires exactly once,
      on the attack whose defeats bring the wave's total to 3, however the
      defeats are spread over attacks. */
  lemma {:induction false} PersistentAdvancesOnce(fought: int, defeats: seq<nat>)
    ensures AdvancesPersistent(fought, defeats) == (if Advances(fought, Sum(defeats)) then 1 else 0)
    decreases defeats
  {
    if defeats != [] {
      PersistentAdvancesOnce(fought + defeats[0], defeats[1..]);
    }
  }

  // ---------------------------------------------------------------------
  // The minions' attacks

  /** The hero fields the minions' attacks read and write. */
  datatype Guard = Guard(health: int, lastHit: int, isInvulnerable: bool)

  /** The melee test of `processMinionMeleeAttack`. */
  predicate MeleeFires(heroX: real, m: Minion, now: int) {
    Abs(heroX - m.groupPosition.x) < MeleeRange && now - m.lastHit > m.hitCooldown
  }

  /** The firing test of `processMinionRangedAttack`. */
  predicate RangedFires(heroX: real, m: Minion, now: int) {
    m.canShoot && Abs(heroX - m.groupPosition.x) < RangedRange && now - m.lastProjectile > m.projectileCooldown
  }

  /** What the frame's `updateMinions` leaves behind. `aborted` is set when a
      ranged shot fires: building the projectile reads a name that is not in
      scope, so the frame stops right after the shot's timestamp. */
  datatype MinionsFrame = MinionsFrame(guard: Guard, minions: seq<Minion>, aborted: bool)

  /** `updateMinions` from index `i` on. */
  function UpdateFrom(g: Guard, ms: seq<Minion>, i: nat, heroX: real, now: int): MinionsFrame
    decreases |ms| - i
  {
    if i >= |ms| then MinionsFrame(g, ms, false)
    else if !ms[i].active then UpdateFrom(g, ms, i + 1, heroX, now)
    else if RangedFires(heroX, ms[i], now) then MinionsFrame(g, ms[i := ms[i].(lastProjectile := now)], true)
    else if !MeleeFires(heroX, ms[i], now) then UpdateFrom(g, ms, i + 1, heroX, now)
    else
      var g' := if g.isInvulnerable then g else Guard(g.health - MeleeDamage, now, true);
      UpdateFrom(g', ms[i := ms[i].(lastHit := now)], i + 1, heroX, now)
  }

  /** A frame of minion attacks costs the hero at most one 10-point hit, and
      only when the hero was not invulnerable; the hit leaves the hero
      invulnerable, timed from `now`. */
  lemma {:induction false} AtMostOneHitPerFrame(g: Guard, ms: seq<Minion>, i: nat, heroX: real, now: int)
    ensures var r := UpdateFrom(g, ms, i, heroX, now).guard;
            r == g || (!g.isInvulnerable && r == Guard(g.health - MeleeDamage, now, true))
    decreases |ms| - i
  {
    if i < |ms| && ms[i].active && !RangedFires(heroX, ms[i], now) {
      var g' := if g.isInvulnerable then g else Guard(g.health - MeleeDamage, now, true);
      if MeleeFires(heroX, ms[i], now) {
        AtMostOneHitPerFrame(g', ms[i := ms[i].(lastHit := now)], i + 1, heroX, now);
      } else {
        AtMostOneHitPerFrame(g, ms, i + 1, heroX, now);
      }
    } else if i < |ms| && !ms[i].active {
      AtMostOneHitPerFrame(g, ms, i + 1, heroX, now);
    }
  }

  /** The minions' attacks only stamp their own cooldown timestamps, with
      `now`: health, activity and positions are untouched. */
  lemma {:induction false} AttacksOnlyStampCooldowns(g: Guard, ms: seq<Minion>, i: nat, heroX: real, now: int)
    ensures var r := UpdateFrom(g, ms, i, heroX, now).minions;
            && |r| == |ms|
            && forall j :: 0 <= j < |ms| ==>
                 && r[j].(lastHit := ms[j].lastHit, lastProjectile := ms[j].lastProjectile) == ms[j]
                 && (r[j].lastHit == ms[j].lastHit || r[j].lastHit == now)
                 && (r[j].lastProjectile == ms[j].lastProjectile || r[j].lastProjectile == now)
    decreases |ms| - i
  {
    if i < |ms| && ms[i].active && !RangedFires(heroX, ms[i], now) {
      var g' := if g.isInvulnerable then g else Guard(g.health - MeleeDamage, now, true);
      if MeleeFires(heroX, ms[i], now) {
        var ms' := ms[i := ms[i].(lastHit := now)];
        AttacksOnlyStampCooldowns(g', ms', i + 1, heroX, now);
        var r := UpdateFrom(g', ms', i + 1, heroX, now).minions;
        forall j | 0 <= j < |ms|
          ensures r[j].(lastHit := ms[j].lastHit, lastProjectile := ms[j].lastProjectile) == ms[j]
        {
          assert r[j].(lastHit := ms'[j].lastHit, lastProjectile := ms'[j].lastProjectile) == ms'[j];
        }
      } else {
        AttacksOnlyStampCooldowns(g, ms, i + 1, heroX, now);
      }
    } else if i < |ms| && !ms[i].active {
      AttacksOnlyStampCooldowns(g, ms, i + 1, heroX, now);
    }
  }

  /** `processMinionMeleeAttack` for the minion at index `i`. */
  method ProcessMinionMeleeAttack(hero: Hero, minions: MinionList, i: nat, now: int)
    requires i < |minions.items|
    modifies hero`health, hero`lastHit, hero`isInvulnerable, minions
    ensures var m := old(minions.items[i]);
            && minions.items == (if MeleeFires(hero.x, m, now) then old(minions.items)[i := m.(lastHit := now)]
                                 else old(minions.items))
            && (if MeleeFires(hero.x, m, now) && !old(hero.isInvulnerable)
                then hero.health == old(hero.health) - MeleeDamage && hero.lastHit == now && hero.isInvulnerable
                else hero.health == old(hero.health) && hero.lastHit == old(hero.lastHit)
                     && hero.isInvulnerable == old(hero.isInvulnerable))
  {
    var minion := minions.items[i];
    var distance := Abs(hero.x - minion.groupPosition.x);
    if distance < MeleeRange && now - minion.lastHit > minion.hitCooldown {
      minions.items := minions.items[i := minion.(lastHit := now)];
      if !hero.isInvulnerable {
        hero.health := hero.health - MeleeDamage;
        hero.lastHit := now;
        hero.isInvulnerable := true;
      }
    }
  }

  /** `updateMinions`: each active minion may shoot, then strike. Returns
      whether a shot ended the frame. */
  method UpdateMinions(hero: Hero, minions: MinionList, now: int) returns (aborted: bool)
    modifies hero`health, hero`lastHit, hero`isInvulnerable, minions
    ensures UpdateFrom(Guard(old(hero.health), old(hero.lastHit), old(hero.isInvulnerable)),
                       old(minions.items), 0, hero.x, now)
         == MinionsFrame(Guard(hero.health, hero.lastHit, hero.isInvulnerable), minions.items, aborted)
  {
    ghost var g0 := Guard(hero.health, hero.lastHit, hero.isInvulnerable);
    ghost var ms0 := minions.items;
    var i := 0;
    while i < |minions.items|
      invariant i <= |minions.items|
      invariant UpdateFrom(Guard(hero.health, hero.lastHit, hero.isInvulnerable), minions.items, i, hero.x, now)
             == UpdateFrom(g0, ms0, 0, hero.x, now)
      decreases |minions.items| - i
    {
      var minion := minions.items[i];
      if minion.active {
        if minion.canShoot && Abs(hero.x - minion.groupPosition.x) < RangedRange
           && now - minion.lastProjectile > minion.projectileCooldown {
          minions.items := minions.items[i := minion.(lastProjectile := now)];
          return true;
        }
        ProcessMinionMeleeAttack(hero, minions, i, now);
      }
      i := i + 1;
    }
    return false;
  }

  /** `handleHeroInvulnerability`: the flag clears once more than
      `invulnerableTime` has passed since the last hit, and not before. */
  method HandleHeroInvulnerability(hero: Hero, now: int)
    modifies hero`isInvulnerable
    ensures hero.isInvulnerable == (old(hero.isInvulnerable) && now - hero.lastHit <= hero.invulnerableTime)
  {
    if hero.isInvulnerable {
      if now - hero.lastHit > hero.invulnerableTime {
        hero.isInvulnerable := false;
      }
    }
  }

  // ---------------------------------------------------------------------
  // Spawning and the health bar

  /** The timer body of `spawnMinions`: the `i`-th minion of the wave joins
      the array at its slot, at a random depth. (The level-2 wave of
      `advanceToNextLevel` has the same body, but is never scheduled; see
      `AdvanceToNextLevel`.) */
  method SpawnWaveMinion(minions: MinionList, i: nat, zRoll: real, level: int)
    requires i < 3 && 0.0 <= zRoll < 1.0
    modifies minions
    ensures minions.items == old(minions.items) + [CreateMinion(WaveX(i), 1.5, (zRoll - 0.5) * 3.0, level)]
    ensures -1.5 <= (zRoll - 0.5) * 3.0 < 1.5
  {
    var xPos := 35.0 + (i as real - 1.0) * 5.0;
    var zPos := (zRoll - 0.5) * 3.0;
    minions.items := minions.items + [CreateMinion(xPos, 1.5, zPos, level)];
  }

  /** Width of the health-bar fill at full health. */
  const HealthBarFillWidth: real := 1.5 - 0.05

  /** The fill of a minion's health bar: a scale and a horizontal offset. */
  datatype BarFill = BarFill(scale: real, offset: real)

  /** `updateMinionHealthBar`: the fill shrinks with health, never below
      zero, and stays anchored at its left edge. */
  function MinionHealthBar(health: int): (b: BarFill)
    ensures health <= 0 ==> b.scale == 0.0
    ensures 0 <= health ==> b.scale == health as real / 100.0
    ensures 0 <= health <= 100 ==> 0.0 <= b.scale <= 1.0
    ensures b.offset - b.scale * HealthBarFillWidth / 2.0 == -HealthBarFillWidth / 2.0
  {
    var pct := (if health < 0 then 0 else health) as real / 100.0;
    BarFill(pct, -((1.0 - pct) * HealthBarFillWidth) / 2.0)
  }

  /** Four hits defeat a fresh minion and three do not. */
  lemma FourHitsDefeat(x: real, y: real, z: real, level: int)
    ensures var m := CreateMinion(x, y, z, level);
            Strike(Strike(Strike(m))).active && !Strike(Strike(Strike(Strike(m)))).active
  {
  }
}
