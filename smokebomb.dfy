/** Smoke-bomb pickups: the one placed in the gap at start-up, the ones
    respawned on the first rooftop, and the small displays that follow the
    hero's bomb count. */
module SmokeBomb {
  import opened Text
  import opened HeroEntity
  import opened Game
  import opened Common

  /** Pickup radius; the source compares the Euclidean distance in the x-y
      plane with it, which is the same as comparing squares. */
  const PickupRadius: real := 1.5

  /** Whether a hero at (`px`, `py`) is within pickup distance of a bomb at
      (`bx`, `by`); depth is ignored. */
  predicate WithinPickup(px: real, py: real, bombX: real, bombY: real) {
    (px - bombX) * (px - bombX) + (py - bombY) * (py - bombY) < PickupRadius * PickupRadius
  }

  class Collectible {
    var x: real
    /** Height the bomb floats around. */
    const baseY: real
    var y: real
    var collected: bool
    var visible: bool

    /** `createSmokeBombCollectible`: the bomb in the gap between the rooftops. */
    constructor Initial()
      ensures x == 22.5 && baseY == 2.0 && y == 2.0
      ensures !collected && visible
    {
      x := 22.5;
      baseY := 2.0;
      y := 2.0;
      collected := false;
      visible := true;
    }

    /** `spawnSmokeBombOnFirstRooftop`: a bomb at a random spot on the first
        rooftop; `roll` is the `Math.random()` value. */
    constructor Respawned(roll: real)
      requires 0.0 <= roll < 1.0
      ensures -5.0 <= x < 10.0 && x == -5.0 + roll * 15.0
      ensures baseY == 1.5 && y == 1.5
      ensures !collected && visible
    {
      x := -5.0 + roll * 15.0;
      baseY := 1.5;
      y := 1.5;
      collected := false;
      visible := true;
    }

    /** `checkCollision`: never true once collected. */
    predicate CheckCollision(px: real, py: real)
      reads this
    {
      !collected && WithinPickup(px, py, x, y)
    }

    /** `collect`: marks the bomb taken and hides it; a second call changes nothing. */
    method Collect()
      modifies this`collected, this`visible
      ensures collected && !visible
      ensures old(collected && !visible) ==> unchanged(this)
    {
      collected := true;
      visible := false;
    }

    /** The floating animation: `sine` is the value of the sine term, in [-1, 1]. */
    method Hover(sine: real)
      requires -1.0 <= sine <= 1.0
      modifies this`y
      ensures y == baseY + sine * 0.5
      ensures baseY - 0.5 <= y <= baseY + 0.5
    {
      y := baseY + sine * 0.5;
    }

    /** One frame of `animateRespawnedBomb`: float the bomb, and on the first
        frame the hero is within reach collect it, lock movement and hand
        over to the quiz. Frames after a collection return at once. */
    method RespawnFrame(hero: Hero, gs: GameState, sine: real) returns (quizShown: bool)
      requires -1.0 <= sine <= 1.0
      modifies this`y, this`collected, this`visible, gs`movementLocked
      ensures old(collected) ==> !quizShown && unchanged(this) && unchanged(gs)
      ensures !old(collected) ==> y == baseY + sine * 0.5
      ensures !old(collected) ==> (quizShown <==> WithinPickup(hero.x, hero.y, x, y))
      ensures quizShown ==> collected && !visible && gs.movementLocked
      ensures !quizShown ==>
                collected == old(collected) && visible == old(visible)
                && gs.movementLocked == old(gs.movementLocked)
    {
      quizShown := false;
      if collected {
        return;
      }
      y := baseY + sine * 0.5;
      if WithinPickup(hero.x, hero.y, x, y) && !collected {
        collected := true;
        visible := false;
        gs.movementLocked := true;
        quizShown := true;
      }
    }
  }

  /** A collected bomb never reports a collision, wherever the hero is. */
  lemma CollectedNeverCollides(c: Collectible, px: real, py: real)
    requires c.collected
    ensures !c.CheckCollision(px, py)
  {
  }

  /** The counter text of `updateSmokeBombCounter`. */
  function CounterText(count: int): (s: string)
    ensures |s| >= 2 && s[0] == 'x' && s[1..] == IntToString(count)
  {
    "x" + IntToString(count)
  }

  /** The counter turns red when one bomb or none is left. */
  function CounterColour(count: int): (c: int)
    ensures c == Red <==> count <= 1
    ensures c == Cyan <==> count > 1
  {
    if count <= 1 then Red else Cyan
  }

  /** Two counts show the same counter text only when they are equal. */
  lemma CounterTextInjective(a: int, b: int)
    requires CounterText(a) == CounterText(b)
    ensures a == b
  {
    assert CounterText(a)[1..] == CounterText(b)[1..];
    IntToStringInjective(a, b);
  }

  /** The arrow that points to a respawned bomb is shown only to a hero who
      has the smoke attack and is down to one bomb or none. */
  predicate ArrowVisible(hasSmokeAttack: bool, smokeBombsCount: int) {
    hasSmokeAttack && smokeBombsCount <= 1
  }

  /** The arrow shows exactly when the counter is red, once the attack is unlocked. */
  lemma ArrowMatchesRedCounter(hasSmokeAttack: bool, count: int)
    requires hasSmokeAttack
    ensures ArrowVisible(hasSmokeAttack, count) <==> CounterColour(count) == Red
  {
  }
}
