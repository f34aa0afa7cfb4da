# Rooftop ninja: a verified model of the game logic

This project models the discrete game logic of a browser arcade game. A
ninja hero runs, dodges and jumps across two rooftops. The hero picks up
smoke bombs, which open a multiplication quiz that pays out in bombs, and
throws the bombs at a wave of minions that fight back. The model covers:

- the per-frame loop (`animate`): movement, dodge, jump, gravity, the
  rooftop support lookup, the death and fall triggers, the floor clamp,
  the one-time wave spawn and combat;
- the keyboard state machine;
- the quiz;
- the collectibles;
- the entity records;
- the trail's particle list;
- the pure parts of the interface.

How the source is carried over:

- **Objects the source updates in place are classes.** The hero, the game
  state, the key record, the collectibles, the quiz dialog's counters, the
  minion array and the particle list.
- **Each JavaScript function that changes state is a method.** Its
  `modifies` clause names the fields it writes. Loops in the source are
  `while` loops proved against a specification function: the attack's walk
  over the minions, the minions' attacks, the range rings, the rooftop
  lookup, the quiz's option loop and the trail's splice-and-step-back filter.
- **Records the source builds as values are datatypes.** Minions,
  particles, rooftops, questions and notification settings.
- **Inputs are parameters.** `Date.now()` is `now`, one value per frame.
  `Math.random()` results are reals in [0, 1). The sine and cosine values of
  the hover and ring effects are given too. The gap since the previous frame
  is `elapsed`.
- **Timer callbacks are separate methods** that the environment may run
  later: the death reset, the fall restart, each minion of a wave, and the
  villain's fade-out completion.
- **Exceptions that end a frame are results.** Two paths of the frame throw
  in the source, and the model gives each an `aborted` result that ends the
  frame at the point of the throw. The first is the level transition after
  an attack that empties the array on level 1 or 2: it assigns to a
  `minionsFought` that is not declared, and module code is strict. The
  second is a minion's ranged shot, which reads a name not in scope.

Numbers:

- Integers are unbounded. No counter in this core comes near a machine
  limit.
- Positions and velocities are only added, scaled and compared, so they are
  exact `real`s.
- The pickup test compares a Euclidean distance with 1.5. It is stated as
  the squared distance compared with 2.25.

Where the game's written description and its code disagree, the model
follows the code:

- Hero health is never clamped. Melee hits take it below zero; only the
  health bar's display clamps.
- A smoke bomb respawns only when strictly more than the cooldown has
  passed (`now - lastSmokeBombRespawn > smokeBombRespawnCooldown`).
- An attack spends a bomb only when it hits at least one minion. An attack
  that passes the gate but reaches no minion spends nothing and does not
  start the cooldown.

## Model

| member | source | states |
|---|---|---|
| Text.NatToString | modules/ui/mathQuiz.js:15 | the decimal text of a natural: at least one digit, only digits, no leading zero |
| Text.NatToStringValue | modules/ui/mathQuiz.js:15 | the base-ten reading of the text of n is n |
| Text.IntToString | modules/ui/mathQuiz.js:21 | an integer's text starts with a minus sign exactly when it is negative |
| Text.NatToStringInjective | modules/ui/mathQuiz.js:22 | two naturals with the same text are equal |
| Text.IntToStringInjective | modules/ui/mathQuiz.js:22 | two integers with the same text are equal, so comparing option texts compares numbers |
| Rooftops.CreateRooftops | modules/environment/rooftops.js:3-49 | exactly two rooftops in order, ids 0 then 1; [-15, 15] and [22.5, 47.5] are centre ± width/2; depth 10; a 7.5 gap between them |
| Rooftops.FirstOver | modules/core/animationLoop.js:760-775 | the first rooftop in order that the body is over; None exactly when it is over none |
| Rooftops.FindRooftop | modules/core/animationLoop.js:760-775 | the `for … of` loop with `break` returns exactly that first match |
| Rooftops.FirstMatchIsOnlyMatch | modules/environment/rooftops.js:17-41 | on the game's rooftops, with tolerance at most 1, the first match is rooftop i exactly when the body is over rooftop i |
| HeroEntity.Hero.InitHero | modules/entities/hero.js:9-33 | every initial field of the hero; dodgeDuration < dodgeCooldown |
| Game.GameState.constructor | main.js:43-50 | intro phase, unlocked, no defeats of 20, wave not spawned, level 1 |
| MinionEntity.CreateMinion | modules/entities/minion.js:8-19 | health 100, active, timestamps 0, no indicator, both positions (x, y, z), canShoot iff level ≥ 2, cooldowns 500 and 9000 |
| MinionEntity.SpawnColour | modules/entities/minion.js:81 | level 1 magenta, level 2 orange, any other level red |
| SmokeBomb.Collectible.Initial | modules/collectibles/smokeBomb.js:35-57 | the first bomb sits at x 22.5 around height 2.0, not collected |
| SmokeBomb.Collectible.Respawned | modules/collectibles/smokeBomb.js:164-174 | a respawned bomb lies at x in [-5, 10), height 1.5, not collected |
| SmokeBomb.Collectible.Collect | modules/collectibles/smokeBomb.js:72-75 | collected and hidden afterwards; a second call changes nothing |
| SmokeBomb.Collectible.Hover | modules/collectibles/smokeBomb.js:39-42 | the bomb floats within 0.5 of its base height |
| SmokeBomb.Collectible.RespawnFrame | modules/collectibles/smokeBomb.js:265-334 | once collected, a frame changes nothing; otherwise the quiz opens exactly when the hero is within reach, and then the bomb is collected and movement locked |
| SmokeBomb.CollectedNeverCollides | modules/collectibles/smokeBomb.js:58-59 | a collected bomb reports no collision wherever the hero is |
| SmokeBomb.CounterText | modules/collectibles/smokeBomb.js:139 | "x" followed by the count's text |
| SmokeBomb.CounterColour | modules/collectibles/smokeBomb.js:142-149 | red exactly when at most one bomb is left, cyan exactly otherwise |
| SmokeBomb.CounterTextInjective | modules/collectibles/smokeBomb.js:139 | different counts show different counter texts |
| SmokeBomb.ArrowMatchesRedCounter | modules/collectibles/smokeBomb.js:384 | with the smoke attack unlocked, the arrow is shown exactly when the counter is red |
| Combat.Strike | modules/core/animationLoop.js:1126-1145 | a hit takes exactly 25 health; the minion is inactive and hidden exactly when health reaches 0 or below; nothing else changes |
| Combat.StrikeAllPointwise | modules/core/animationLoop.js:1108-1148 | every active minion within 5.0 is struck once; every other minion is untouched |
| Combat.SweepFromSpec | modules/core/animationLoop.js:1108-1148 | the walk from any index: hits iff some minion in range; restores health iff the defeats carry the count to 3; empties the array and ends the walk iff that happens on level 1 or 2; otherwise strikes exactly the minions in range |
| Combat.AttackOutcome | modules/core/animationLoop.js:1108-1148 | the same for a whole attack, from the first minion |
| Combat.AdvanceToNextLevel | modules/core/animationLoop.js:132-207 | levels 1 and 2 empty the array and then throw on the undeclared `minionsFought` (lines 157 and 202), so the level-2 wave is never scheduled; the new level only reaches the parameter; other levels change nothing |
| Combat.DefeatedMinion | modules/core/animationLoop.js:95-130 | the minion is deactivated and hidden; health is restored to 100 exactly when the passed count + 1 is 3; then on levels 1 and 2 the array is cleared and the call throws |
| Combat.ProcessHeroAttack | modules/core/animationLoop.js:1096-1193 | nothing changes unless off cooldown, armed and holding a bomb; then the cooldown is stamped exactly when a minion is hit; minions and health follow the reference; the attack throws exactly when its defeats carry the count to 3 on level 1 or 2, and then no bomb is spent and none respawns; otherwise a hit spends one bomb, and a respawn happens iff the count hit 0 or below and the respawn cooldown passed strictly, stamping `now`; the count never goes negative |
| Combat.DefeatedAtMostInRange | modules/core/animationLoop.js:1141-1145 | an attack defeats no more minions than it reaches |
| Combat.InRangeAtMostLength | modules/core/animationLoop.js:1108-1114 | an attack reaches no more minions than there are |
| Combat.WaveX | modules/core/animationLoop.js:1000 | the wave's slots are x = 30, 35 and 40 |
| Combat.StandardWaveNeverAdvances | modules/core/animationLoop.js:846 | on a standard wave, starting from the game state's count of 0, an attack defeats at most two minions and never restores health or clears the wave |
| Combat.OneAtATimeNeverAdvances | modules/core/animationLoop.js:1144 | three attacks of one defeat each total 3 defeats, but the third-defeat branch never fires when each starts from 0 |
| Combat.PersistentAdvancesOnce | modules/core/animationLoop.js:113 | with a count that persists across attacks, the third-defeat branch fires exactly once, when the total reaches 3, however defeats are spread |
| Combat.AtMostOneHitPerFrame | modules/core/animationLoop.js:391-424 | one frame of minion attacks costs the hero at most one 10-point hit, only when not invulnerable, leaving the hero invulnerable from `now` |
| Combat.AttacksOnlyStampCooldowns | modules/core/animationLoop.js:397-398 | minion attacks change a minion only by stamping `lastHit` or `lastProjectile` with `now` |
| Combat.ProcessMinionMeleeAttack | modules/core/animationLoop.js:391-424 | melee fires iff within 2.5 and off cooldown; it stamps the minion even when the hero is invulnerable; the hero loses exactly 10 and becomes invulnerable only when it was not already |
| Combat.UpdateMinions | modules/core/animationLoop.js:209-248 | the loop's new hero and minion state is that of the reference walk, including the frame cut short by a ranged shot |
| Combat.HandleHeroInvulnerability | modules/core/animationLoop.js:971-987 | invulnerability clears exactly when more than `invulnerableTime` has passed since the last hit |
| Combat.SpawnWaveMinion | modules/core/animationLoop.js:998-1006 | the i-th timer appends one fresh minion at its slot with depth in [-1.5, 1.5) |
| Combat.MinionHealthBar | modules/core/animationLoop.js:82-93 | the fill's scale is health/100, never below 0; its left edge stays where a full bar's is |
| Combat.FourHitsDefeat | modules/core/animationLoop.js:1127 | three hits leave a new minion active and four defeat it |
| Controls.KeyFlags.With | modules/core/controls.js:31-39 | setting one flag keeps the other four |
| Controls.KeyFlagCoversEveryFlag | modules/core/controls.js:29-40 | every flag has a key that drives it |
| Controls.Keys.constructor | modules/core/controls.js:2 | all five flags start false |
| Controls.Keys.Set | modules/core/controls.js:29-40 | exactly the named flag takes the new value |
| Controls.Keys.KeyDown | modules/core/controls.js:4-42 | in the intro, Enter starts play locked and every other key does nothing; during play a key sets exactly its own flag and the phase stays gameplay |
| Controls.Keys.KeyUp | modules/core/controls.js:44-59 | during play a key clears exactly its own flag; in the intro nothing changes |
| Controls.VillainFadeComplete | modules/core/controls.js:21-22 | the fade-out completion unlocks movement |
| Controls.DodgeGauge | modules/core/controls.js:65-88 | the fill is elapsed/cooldown·100 below the cooldown and 100 after; red exactly below half, orange for the rest, cyan exactly when ready |
| Controls.DodgeGaugeMonotone | modules/core/controls.js:72-86 | the fill never goes down as time passes |
| MathQuiz.Factor | modules/ui/mathQuiz.js:11-12 | each factor lies in 3..9 |
| MathQuiz.Offset | modules/ui/mathQuiz.js:21 | each wrong-answer offset lies in -5..4 |
| MathQuiz.Candidates | modules/ui/mathQuiz.js:21 | the ten candidate texts for a product p are those of p-5 .. p+4 |
| MathQuiz.PositivityTestIsVacuous | modules/ui/mathQuiz.js:22 | with a product of at least 9, the `> 0` test never rejects a candidate |
| MathQuiz.FillSpec | modules/ui/mathQuiz.js:18-25 | the option loop keeps its prefix, adds only new candidates, stays distinct, never exceeds four, and stops early only if the draws run out |
| MathQuiz.GenerateOptions | modules/ui/mathQuiz.js:18-25 | the loop returns the reference's options and draw count |
| MathQuiz.GeneratedOptions | modules/ui/mathQuiz.js:18-25 | generated options start with the correct product, are distinct and lie within five of it |
| MathQuiz.ApplySwaps | modules/ui/mathQuiz.js:28 | the shuffle is a permutation of the options (same multiset, so same length) and keeps distinct options distinct |
| MathQuiz.ExactlyOneCorrect | modules/ui/mathQuiz.js:150 | exactly one option of a well-formed question is correct |
| MathQuiz.GeneratedSpec | modules/ui/mathQuiz.js:10-34 | a generated question has factors 3..9 and four distinct options, each within five of the product and the correct one among them; no question is generated only when every draw was used |
| MathQuiz.GenerateQuestion | modules/ui/mathQuiz.js:10-34 | one pass of the loop gives exactly the reference question: the options the option loop built, shuffled by the given exchanges, or None exactly when that loop ran out of draws |
| MathQuiz.GenerateQuestions | modules/ui/mathQuiz.js:9-35 | three questions, the k-th exactly the reference question of the k-th draws; None exactly when some option loop ran out of draws |
| MathQuiz.GeneratedQuizWellFormed | modules/ui/mathQuiz.js:9-35 | every question of a generated quiz is well formed |
| MathQuiz.EarnedSmokeBombs | modules/ui/mathQuiz.js:239 | two bombs per correct answer, at most six |
| MathQuiz.Quiz.constructor | modules/ui/mathQuiz.js:37-38 | the quiz starts on question 0 with no correct answers |
| MathQuiz.Quiz.CorrectAtMostThree | modules/ui/mathQuiz.js:150-165 | the correct count never exceeds three |
| MathQuiz.Quiz.ClickOption | modules/ui/mathQuiz.js:148-176 | the first click on a question adds 1 exactly when correct; later clicks change nothing |
| MathQuiz.Quiz.ClickNext | modules/ui/mathQuiz.js:214-221 | moves to the next question below the last, and finishes on the last |
| MathQuiz.Quiz.ClickContinue | modules/ui/mathQuiz.js:300-330 | unlocks movement, grants the smoke attack even with no correct answers, sets the bomb count to exactly the earned number |
| Trail.Decay | modules/effects/trail.js:11-23 | life falls by the particle's own decay; a moving particle moves by its velocity and then feels 0.002 gravity; scale is life² and opacity 0.8·life² |
| Trail.Survivors | modules/effects/trail.js:10-30 | the survivors are no more than before |
| Trail.SurvivorsAlive | modules/effects/trail.js:25-29 | every particle left after an update is alive |
| Trail.StepInvariant | modules/effects/trail.js:10-30 | one pass of the loop body, whether the particle stays or is spliced out with the index stepped back, keeps the survivors of the processed prefix before the unprocessed rest |
| Trail.SurvivorsExactly | modules/effects/trail.js:25-29 | a particle survives exactly when it is the decay of an old one and is still alive |
| Trail.NewDecay | modules/effects/trail.js:48 | a new particle's decay lies in [0.03, 0.05) |
| Trail.RingParticle | modules/effects/trail.js:60-77 | a ring particle starts fully alive on the ring |
| Trail.ParticleTrail.Update | modules/effects/trail.js:8-31 | the splice-and-step-back loop leaves exactly the survivors, in order |
| Trail.ParticleTrail.CreateVillainParticle | modules/effects/trail.js:34-56 | appends exactly one particle with life 1.0 |
| Trail.ParticleTrail.CreateRing | modules/effects/trail.js:59-78 | appends n ring particles and keeps the old ones |
| Trail.ParticleTrail.CreateHeroPulseParticles | modules/effects/trail.js:59-78 | twelve cyan ring particles appended at radius 2.0, moving outwards at 0.06 |
| Trail.ParticleTrail.CreateHealingParticles | modules/effects/trail.js:81-101 | twenty green ring particles appended at radius 1.5, moving outwards at 0.03 |
| Trail.ParticleTrail.CreateVillainFadeParticles | modules/effects/trail.js:104-127 | one particle when the chance exceeds 0.7, none otherwise |
| Interface.HealthPercentage | modules/ui/interface.js:263 | health clamped to 0..100 |
| Interface.HealthColour | modules/ui/interface.js:268-274 | cyan above 60, yellow above 30, red otherwise; exactly one band |
| Interface.HealthLabel | modules/ui/interface.js:265 | "HP: " + the percentage + "/100" |
| Interface.UpdateHealthBar | modules/ui/interface.js:262-275 | width, caption and colour all come from the clamped percentage |
| Interface.BandMonotone | modules/ui/interface.js:268-274 | more health never shows a lower band |
| Interface.LabelDeterminesPercentage | modules/ui/interface.js:265 | equal captions mean equal clamped percentages |
| Interface.MergeSettings | modules/ui/interface.js:280-288 | each setting comes from the options if given, else from the defaults |
| Interface.MergeRoundTrip | modules/ui/interface.js:288 | full options come back unchanged; no options give the defaults |
| Interface.VerticalTop | modules/ui/interface.js:309-315 | "top" 20%, "bottom" 80%, anything else 50% |
| Interface.Padding | modules/ui/interface.js:304 | padded exactly when the background is not transparent |
| AnimationLoop.DodgeDirection | modules/core/animationLoop.js:648-655 | left gives -1, else right gives +1, else the facing direction |
| AnimationLoop.StartDodge | modules/core/animationLoop.js:638-668 | a dodge starts exactly when the key is held, no dodge is running and the cooldown passed strictly; it stamps `now`, makes the hero invulnerable and overwrites `invulnerableTime` with duration + 100 |
| AnimationLoop.WalkVelocity | modules/core/animationLoop.js:688-696 | left -0.3, else right 0.3, else a friction step that never speeds up or reverses |
| AnimationLoop.Steer | modules/core/animationLoop.js:671-697 | during a dodge vx is direction·speed; when it ends vx halves and the dodge stops; otherwise walking |
| AnimationLoop.BoostZoneOfGameRooftops | modules/core/animationLoop.js:700-722 | on the game's rooftops the boost applies exactly for 7 < x ≤ 15 and |z| ≤ 5 |
| AnimationLoop.Jump | modules/core/animationLoop.js:700-738 | only from the ground: a boosted jump (0.35 up, 0.4 forward) in the boost zone, else 0.25 up; the hero leaves the ground |
| AnimationLoop.Accelerate | modules/core/animationLoop.js:638-740 | the free-play velocity: vx is the reference `FreeVx` of the old state, and vy is the jump's launch speed or the old vy, less the 0.015 of gravity |
| AnimationLoop.FreeSpeedBounded | modules/core/animationLoop.js:638-740 | free play never makes the hero faster than the fastest of its old speed, the walk, the boost and the dodge |
| AnimationLoop.MoveHero | modules/core/animationLoop.js:620-750 | the quiz opens exactly on touching the uncollected bomb during free play; locked or outside play both velocities are 0 and the hero stays; in free play vx is `FreeVx` of the old state, and height, vy and grounded are one `FreeFall` step (jump, gravity, move) |
| AnimationLoop.Settle | modules/core/animationLoop.js:813-817 | a hero not falling that sank below 1.5 is put back at 1.5 at rest and grounded; otherwise nothing changes |
| AnimationLoop.RestIsStable | modules/core/animationLoop.js:740-747 | gravity and the clamp keep a hero at rest on a roof at rest for any number of frames |
| AnimationLoop.Ballistic | modules/core/animationLoop.js:740-747 | an airborne hero above the roof follows the constant-gravity parabola, its vy falling by 0.015 a frame |
| AnimationLoop.NormalJumpAirtime | modules/core/animationLoop.js:724-747 | a normal jump from rest stays airborne for 32 frames and is back at rest on the 33rd |
| AnimationLoop.Support | modules/core/animationLoop.js:760-775 | the support is the first rooftop within half the hero's width; reaching rooftop 1 is remembered for good |
| AnimationLoop.Indicate | modules/core/animationLoop.js:1018-1060 | an active minion in range shows its ring; out of range a ring already attached is hidden; nothing else changes |
| AnimationLoop.HandleEnemyIndicators | modules/core/animationLoop.js:1018-1060 | every minion gets exactly that update |
| AnimationLoop.FallAndClamp | modules/core/animationLoop.js:778-817 | the death and fall triggers as in `HeroPhase`; the new height, vy and grounded are the clamp `Settle` of the state after the triggers |
| AnimationLoop.HeroPhase | modules/core/animationLoop.js:620-822 | the state after movement is one `FreeFall` step in free play, and otherwise the old height with vy 0; the final height, vy and grounded are `Settle` of it, ungrounded when a trigger fired; the death trigger fires exactly when health is at or below 0 and the hero is not yet falling; the fall trigger fires only when there is no support, no death and the hero is at or below 1.5; both set falling and unground the hero; a hero not falling ends at or above 1.5; falling and the second-rooftop flag never revert; the returned support is the first rooftop under the hero's final position |
| AnimationLoop.IndicatorsKeepCounts | modules/core/animationLoop.js:842-847 | the range rings change neither the number of minions in range nor the number an attack defeats |
| AnimationLoop.CombatPhase | modules/core/animationLoop.js:841-857 | an attack happens only in free play with the key held; the attack throws exactly when it is ready and its defeats carry the game state's count to 3 on level 1 or 2, and then the array is empty, health is 100, no bomb is spent and neither the minions' attacks nor the invulnerability check run; in every other frame the new minions, health, last hit, invulnerability, attack stamp, bomb count and abort are exactly the reference `NextCombat`: the rings, the reference strike and heal of a ready attack, the bomb spent and the stamp set iff that attack reaches a minion, the minions' walk `UpdateFrom`, then the expiry check unless the walk aborted; a bomb respawns exactly when a spent bomb leaves none and the respawn cooldown has passed |
| AnimationLoop.WaveAndCombat | modules/core/animationLoop.js:829-857 | the trail keeps exactly its survivors; a wave is scheduled exactly when no wave was spawned and the support is rooftop 1, with the current level, and the spawned flag records it; a frame spends at most one bomb and never makes the count negative |
| AnimationLoop.Animate | modules/core/animationLoop.js:607-863 | a skipped frame changes nothing; the phase, the defeat count and the level are never written; a wave is scheduled exactly when the frame runs, no wave was spawned before and the hero ends over rooftop 1, with the game state's level, and the spawned flag is set exactly then or earlier; the trail keeps exactly its survivors (the healing ring of a third defeat is left out, below) |
| AnimationLoop.DeathReset | modules/core/animationLoop.js:790-805 | the hero is back at the start with 100 health, invulnerable from `now` |
| AnimationLoop.FallRestart | modules/core/animationLoop.js:914-968 | the hero is reset and stops dodging, the minions are gone, the count is 0, the wave may spawn again, and play resumes locked |

## Left out

- Rendering and cosmetics. Not modelled: the scene graph, sprites, materials, the camera and skyline, screen shake, and every effect that reschedules itself with `requestAnimationFrame` (explosions, projectiles in flight, spawn and hit flashes, the dodge effect and afterimages, the pulse). They are visual only and use trigonometry over a library that is not shown.
- DOM widgets. Not modelled: notifications on screen, the instructions text, the level indicator, the speech bubble, the attack prompt, the jump prompt and the arrow's screen position. Only the rules that pick their content are modelled.
- Timers. The `setTimeout` bodies are methods the environment may call in any order. Delays and interleavings are not modelled.
- Combat.UpdateMinions: a minion's ranged attack is modelled only up to its firing test and timestamp. The projectile code after that reads `hoverAmount`, a name not in scope in that function, which throws and ends the frame. The model ends the frame there: combat stops and `handleHeroInvulnerability` does not run. The flight and the hit of the projectile are left out.
- Combat.UpdateMinions: the minions' hover and facing are cosmetic and left out.
- Combat.DefeatedMinion, AnimationLoop.CombatPhase, AnimationLoop.WaveAndCombat, AnimationLoop.Animate: do not add the 20 healing particles of a hero restored by a third defeat, because the trail is not in the combat frame; so the trail clauses of `WaveAndCombat` and `Animate` hold for every frame except one whose attack makes a third defeat. `Trail.ParticleTrail.CreateHealingParticles` models that step on its own.
- Combat.AdvanceToNextLevel: the level indicator and notification it writes before the throw are DOM and are left out. The level-2 wave timer after the throw is never reached, so it is not modelled.
- Combat.ProcessHeroAttack: the white hit flash on a minion is deferred and is left out. So is the hero's colour flash, and the reference the deferred callback keeps to the minion object.
- SmokeBomb.Collectible.Respawned: the height is that of the spawn point, 1.5. The first hover step, which runs within the same call, moves the bomb by up to 0.5 and is not applied. The first pickup test of that call, a distance below 1.5, is not applied either. Both matter little in play: a respawn happens only during an attack that hit a minion, minion waves stand on rooftop 1 (spawned at x 30 to 40, attack range 5), and the bomb lies at x below 10. `SmokeBomb.Collectible.RespawnFrame` models that step, and every later frame of the bomb, on its own.
- AnimationLoop.Animate: every `Date.now()` read inside one frame gets the same `now`.
- AnimationLoop.Animate: the contract summarises the frame. The exact new state of each step is stated by `MoveHero`, `Support`, `HeroPhase`, `CombatPhase` and the combat methods they call.
- AnimationLoop.Animate: the frame governor's `lastTime` bookkeeping is replaced by the parameter `elapsed`.
- AnimationLoop.Animate: instead of running `spawnMinions`, it returns the level of a scheduled wave. The three spawn timers are `Combat.SpawnWaveMinion`.
- AnimationLoop.MoveHero: `updateDodgeIndicator` writes only to the DOM. Its rule is modelled as `Controls.DodgeGauge`.
- Orientation. The source reads the sprite's horizontal scale to find the hero's facing. The model keeps that as `facingRight`, set each frame from the hero's position relative to the villain. The villain is never moved on this path.
- MathQuiz.GenerateQuestions: the source loops until four options exist, drawing as many random numbers as it needs. The model takes a finite supply of draws and returns None if they run out first.
- MathQuiz.ApplySwaps: the shuffle sorts with a random comparator. It is modelled as the sequence of exchanges the sort performs. Which exchanges those are is left to the input.
- Trail.ParticleTrail.CreateVillainFadeParticles: the colour blend and the random offsets and velocity are given as inputs.
- Trail.ParticleTrail.CreateRing: the ring angles' cosines and sines are inputs.
- `processMinionRangedAttack`'s off-screen test and `handleJumpPrompt` use camera trigonometry and are left out.
- `temp.js` is an unused fragment with free variables and is not part of this model.
- `constants.js` is imported by no shown file, and its values disagree with the inline literals the code uses. The model uses the inline literals.
- Wiring and plumbing are not part of this model. This covers `main.js`, `scene.js`, `audio.js`, `utils.js`, `textureLoader.js`, `skyline.js`, `jumpBoost.js`, `feedbackForm.js` and `userLogin.js`. The initial game state comes from `main.js` and is `Game.GameState.constructor`.
- `villain.js` is left out except for its fade-out completion, which is `Controls.VillainFadeComplete`.

## Findings

| source | as written | input that shows it | evidently intended | confidence | as-written member | corrected member |
|---|---|---|---|---|---|---|
| modules/core/animationLoop.js:846 | each attack gets a by-value copy of `gameState.minionsFought`, which stays 0 on this path; the local `minionsFought++` at line 1144 is lost when the attack ends, so `minionsFought + 1 === 3` at line 113 needs three defeats in one attack | a wave at x = 30, 35, 40: no hero position is within 5.0 of all three, so no attack defeats more than two; likewise three attacks that defeat one minion each | defeats accumulate across attacks, so the third defeat of the wave restores health and, on levels 1 and 2, empties the array; the level transition that follows has two further defects that the model keeps as written: it throws on the undeclared `minionsFought` (lines 157 and 202), and it assigns the new level only to its parameter (lines 135 and 181) | not executed | Combat.StandardWaveNeverAdvances, Combat.OneAtATimeNeverAdvances | Combat.PersistentAdvancesOnce |

The frame loop itself (`Combat.ProcessHeroAttack`, `AnimationLoop.Animate`)
models the code as written. `Combat.AdvancesPersistent` is the intended
bookkeeping, with the persistent count. `Combat.PersistentAdvancesOnce`
proves that the third-defeat branch then fires exactly once however the
three defeats are spread over attacks. It does not claim that the level then
changes: the two further defects of the level transition remain.
