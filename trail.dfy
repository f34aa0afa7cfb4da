/** The particle list of the trail system: per-frame decay and removal of
    spent particles, and the helpers that add particles to it. */
module Trail {
  import opened Common

  /** A particle's state: where it is, how it drifts (if it drifts), its
      remaining life and per-frame decay, and the scale and opacity derived
      from its life. */
  datatype Particle = Particle(position: Vec3, velocity: Option<Vec3>, life: real, decay: real,
                               scale: real, opacity: real, colour: int)

  const Gravity: real := 0.002

  /** One frame of a particle in `update`. */
  function Decay(p: Particle): (q: Particle)
    ensures q.life == p.life - p.decay
    ensures q.scale == q.life * q.life && q.opacity == 0.8 * q.scale
    ensures p.velocity.None? ==> q.position == p.position && q.velocity == None
    ensures p.velocity.Some? ==>
              q.position == p.position.Add(p.velocity.value)
              && q.velocity == Some(p.velocity.value.(y := p.velocity.value.y - Gravity))
    ensures q.decay == p.decay && q.colour == p.colour
  {
    var life := p.life - p.decay;
    var position := if p.velocity.Some? then p.position.Add(p.velocity.value) else p.position;
    var velocity := if p.velocity.Some? then Some(p.velocity.value.(y := p.velocity.value.y - Gravity)) else None;
    var lifeScale := life * life;
    p.(life := life, position := position, velocity := velocity, scale := lifeScale, opacity := lifeScale * 0.8)
  }

  /** The list `update` leaves: every particle decayed once, the spent ones
      dropped, the rest in their original order. */
  function Survivors(ps: seq<Particle>): (r: seq<Particle>)
    ensures |r| <= |ps|
  {
    if ps == [] then []
    else (if Decay(ps[0]).life > 0.0 then [Decay(ps[0])] else []) + Survivors(ps[1..])
  }

  /** Every particle left after `update` is alive. */
  lemma {:induction false} SurvivorsAlive(ps: seq<Particle>)
    ensures forall k :: 0 <= k < |Survivors(ps)| ==> Survivors(ps)[k].life > 0.0
  {
    if ps != [] {
      SurvivorsAlive(ps[1..]);
      var head := if Decay(ps[0]).life > 0.0 then [Decay(ps[0])] else [];
      assert Survivors(ps) == head + Survivors(ps[1..]);
      forall k | 0 <= k < |Survivors(ps)|
        ensures Survivors(ps)[k].life > 0.0
      {
        if k >= |head| {
          assert Survivors(ps)[k] == Survivors(ps[1..])[k - |head|];
        }
      }
    }
  }

  lemma {:induction false} SurvivorsAppend(a: seq<Particle>, b: seq<Particle>)
    ensures Survivors(a + b) == Survivors(a) + Survivors(b)
  {
    if a == [] {
      assert a + b == b;
    } else {
      assert (a + b)[0] == a[0];
      assert (a + b)[1..] == a[1..] + b;
      SurvivorsAppend(a[1..], b);
    }
  }

  /** No particle is skipped or invented: a particle is in the new list
      exactly when it is the decay of an old one that is still alive. */
  lemma {:induction false} SurvivorsExactly(ps: seq<Particle>, q: Particle)
    ensures q in Survivors(ps) <==> (exists p :: p in ps && Decay(p) == q) && q.life > 0.0
  {
    if ps != [] {
      SurvivorsExactly(ps[1..], q);
      assert forall p :: p in ps <==> p == ps[0] || p in ps[1..];
    }
  }

  /** The decay of a created particle, `0.03 + Math.random() * 0.02`. */
  function NewDecay(roll: real): (d: real)
    requires 0.0 <= roll < 1.0
    ensures 0.03 <= d < 0.05
  {
    0.03 + roll * 0.02
  }

  /** The `k`-th particle of a ring (see `CreateRing`). */
  function RingParticle(position: Vec3, distance: real, speed: real, colour: int,
                        cos: seq<real>, sin: seq<real>, rolls: seq<real>, k: int): (p: Particle)
    requires 0 <= k < |cos| && k < |sin| && k < |rolls| && 0.0 <= rolls[k] < 1.0
    ensures p.life == 1.0 && p.colour == colour && p.scale == 1.0 && p.opacity == 0.8
    ensures p.position == position.Add(Vec3(cos[k] * distance, sin[k] * distance, 0.0))
  {
    Particle(position.Add(Vec3(cos[k] * distance, sin[k] * distance, 0.0)),
             Some(Vec3(cos[k] * speed, sin[k] * speed, 0.0)),
             1.0, NewDecay(rolls[k]), 1.0, 0.8, colour)
  }

  predicate Rolls(draws: seq<real>) {
    forall k :: 0 <= k < |draws| ==> 0.0 <= draws[k] < 1.0
  }

  /** One pass of `update`'s loop body keeps its invariant: the particle at
      index `i` is the next unprocessed one, and after decaying it in place
      it either stays (the index moves on) or is spliced out (the index
      stays). */
  lemma StepInvariant(ps: seq<Particle>, i: nat, original: seq<Particle>, k: nat)
    requires i < |ps| && k < |original|
    requires ps[..i] == Survivors(original[..k]) && ps[i..] == original[k..]
    ensures ps[i] == original[k]
    ensures var q := Decay(original[k]);
            var ps' := ps[i := q];
            && (q.life > 0.0 ==> ps'[..i + 1] == Survivors(original[..k + 1]) && ps'[i + 1..] == original[k + 1..])
            && (q.life <= 0.0 ==>
                  var ps'' := ps'[..i] + ps'[i + 1..];
                  ps''[..i] == Survivors(original[..k + 1]) && ps''[i..] == original[k + 1..])
  {
    assert ps[i] == ps[i..][0] == original[k..][0];
    var q := Decay(original[k]);
    var ps' := ps[i := q];
    assert original[..k + 1] == original[..k] + [original[k]];
    SurvivorsAppend(original[..k], [original[k]]);
    assert Survivors([original[k]]) == if q.life > 0.0 then [q] else [];
    assert ps'[i + 1..] == ps[i + 1..] == original[k + 1..];
    if q.life > 0.0 {
      assert ps'[..i + 1] == ps[..i] + [q];
    } else {
      var ps'' := ps'[..i] + ps'[i + 1..];
      assert ps''[..i] == ps[..i];
      assert ps''[i..] == original[k + 1..];
    }
  }

  class ParticleTrail {
    var particles: seq<Particle>

    constructor ()
      ensures particles == []
    {
      particles := [];
    }

    /** `update`: walks the array by index, decaying each particle in place
        and splicing out the spent ones, stepping the index back after a
        splice so that the next particle is not skipped. */
    method Update()
      modifies this
      ensures particles == Survivors(old(particles))
    {
      ghost var original := particles;
      ghost var k := 0;
      var i: int := 0;
      while i < |particles|
        invariant 0 <= i <= |particles| && 0 <= k <= |original|
        invariant particles[..i] == Survivors(original[..k])
        invariant particles[i..] == original[k..]
        decreases |particles| - i
      {
        ghost var before := particles;
        StepInvariant(before, i, original, k);
        var particle := particles[i];
        particle := particle.(life := particle.life - particle.decay);
        if particle.velocity.Some? {
          particle := particle.(position := particle.position.Add(particle.velocity.value));
          particle := particle.(velocity := Some(particle.velocity.value.(y := particle.velocity.value.y - Gravity)));
        }
        var lifeScale := particle.life * particle.life;
        particle := particle.(scale := lifeScale, opacity := lifeScale * 0.8);
        assert particle == Decay(original[k]);
        particles := particles[i := particle];
        if particle.life <= 0.0 {
          particles := particles[..i] + particles[i + 1..];
          i := i - 1;
        }
        i := i + 1;
        k := k + 1;
      }
      assert k == |original| by {
        assert |particles[i..]| == 0;
      }
      assert original[..k] == original;
      assert particles[..i] == particles;
    }

    /** `createVillainParticle`: one fresh, fully alive particle at the end. */
    method CreateVillainParticle(position: Vec3, colour: int, velocity: Option<Vec3>, roll: real)
      requires 0.0 <= roll < 1.0
      modifies this
      ensures particles == old(particles) + [Particle(position, velocity, 1.0, NewDecay(roll), 1.0, 0.8, colour)]
    {
      particles := particles + [Particle(position, velocity, 1.0, NewDecay(roll), 1.0, 0.8, colour)];
    }

    /** The particles of a ring of `n` spread evenly around `position` at
        radius `distance`, moving outwards at `speed`; `cos` and `sin` are
        the values of the ring's angles. */
    method CreateRing(position: Vec3, n: nat, distance: real, speed: real, colour: int,
                      cos: seq<real>, sin: seq<real>, rolls: seq<real>)
      requires |cos| == n && |sin| == n && |rolls| == n && Rolls(rolls)
      modifies this
      ensures |particles| == |old(particles)| + n
      ensures particles[..|old(particles)|] == old(particles)
      ensures forall k :: |old(particles)| <= k < |particles| ==>
                particles[k] == RingParticle(position, distance, speed, colour, cos, sin, rolls, k - |old(particles)|)
    {
      ghost var start := particles;
      var i := 0;
      while i < n
        invariant 0 <= i <= n
        invariant |particles| == |start| + i && particles[..|start|] == start
        invariant forall k :: |start| <= k < |particles| ==>
                    particles[k] == RingParticle(position, distance, speed, colour, cos, sin, rolls, k - |start|)
      {
        var particlePos := Vec3(position.x + cos[i] * distance, position.y + sin[i] * distance, position.z);
        var velocity := Vec3(cos[i] * speed, sin[i] * speed, 0.0);
        ghost var before := particles;
        CreateVillainParticle(particlePos, colour, Some(velocity), rolls[i]);
        assert particles == before + [RingParticle(position, distance, speed, colour, cos, sin, rolls, i)];
        i := i + 1;
      }
    }

    /** `createHeroPulseParticles`: a ring of twelve cyan particles at radius
        2.0 moving outwards at 0.06. */
    method CreateHeroPulseParticles(position: Vec3, cos: seq<real>, sin: seq<real>, rolls: seq<real>)
      requires |cos| == 12 && |sin| == 12 && |rolls| == 12 && Rolls(rolls)
      modifies this
      ensures |particles| == |old(particles)| + 12 && particles[..|old(particles)|] == old(particles)
      ensures forall k :: |old(particles)| <= k < |particles| ==>
                particles[k] == RingParticle(position, 2.0, 0.06, Cyan, cos, sin, rolls, k - |old(particles)|)
      ensures forall k :: |old(particles)| <= k < |particles| ==>
                particles[k].life == 1.0 && particles[k].colour == Cyan
    {
      CreateRing(position, 12, 2.0, 0.06, Cyan, cos, sin, rolls);
    }

    /** `createHealingParticles`: a ring of twenty green particles at radius
        1.5 moving outwards at 0.03. */
    method CreateHealingParticles(position: Vec3, cos: seq<real>, sin: seq<real>, rolls: seq<real>)
      requires |cos| == 20 && |sin| == 20 && |rolls| == 20 && Rolls(rolls)
      modifies this
      ensures |particles| == |old(particles)| + 20 && particles[..|old(particles)|] == old(particles)
      ensures forall k :: |old(particles)| <= k < |particles| ==>
                particles[k] == RingParticle(position, 1.5, 0.03, 0x00ff88, cos, sin, rolls, k - |old(particles)|)
      ensures forall k :: |old(particles)| <= k < |particles| ==>
                particles[k].life == 1.0 && particles[k].colour == 0x00ff88
    {
      CreateRing(position, 20, 1.5, 0.03, 0x00ff88, cos, sin, rolls);
    }

    /** `createVillainFadeParticles`: a particle only when the first draw
        exceeds 0.7; the colour, offsets and velocity are the further draws'
        results. */
    method CreateVillainFadeParticles(position: Vec3, chance: real, colour: int, offset: Vec3,
                                      velocity: Vec3, roll: real)
      requires 0.0 <= chance < 1.0 && 0.0 <= roll < 1.0
      modifies this
      ensures chance > 0.7 ==>
                particles == old(particles) + [Particle(position.Add(offset), Some(velocity), 1.0, NewDecay(roll), 1.0, 0.8, colour)]
      ensures chance <= 0.7 ==> particles == old(particles)
    {
      if chance > 0.7 {
        CreateVillainParticle(position.Add(offset), colour, Some(velocity), roll);
      }
    }
  }
}
