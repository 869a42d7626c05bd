/**
 * Concrete behaviour of the solver step: what a step does when no
 * neighbour forces act, the repository's own test scenarios, and a
 * scenario in which water ends a step below its pool surface.
 */
module MatterScenarios {
  import opened Types
  import opened Spatial
  import opened MatterRules

  /** No cohesion, repulsion or surface-tension contribution anywhere: a lone particle's forces. */
  const Still: Forces := Forces(
    (pass: nat, slot: nat) => Correction(Zero(), Zero()),
    (pass: nat, slot: nat) => Zero(),
    (pass: nat, slot: nat) => Zero(),
    (x: real) => if x < 0.0 then 0.0 else x)

  /** Every water particle lifted to the pool surface, everything else untouched. */
  function PoolAll(ps: seq<Particle>, poolHeight: real): (r: seq<Particle>)
    ensures |r| == |ps|
    ensures forall i :: 0 <= i < |ps| && ps[i].material != Water ==> r[i] == ps[i]
    ensures forall i :: 0 <= i < |ps| && ps[i].material == Water ==> r[i] == PoolClamp(ps[i], poolHeight)
  {
    seq(|ps|, i requires 0 <= i < |ps| => if ps[i].material == Water then PoolClamp(ps[i], poolHeight) else ps[i])
  }

  /** Lifting to the pool is idempotent. */
  lemma PoolAllIdempotent(ps: seq<Particle>, poolHeight: real)
    ensures PoolAll(PoolAll(ps, poolHeight), poolHeight) == PoolAll(ps, poolHeight)
  {
    var once := PoolAll(ps, poolHeight);
    forall i | 0 <= i < |ps|
      ensures PoolAll(once, poolHeight)[i] == once[i]
    {
      if ps[i].material == Water {
        assert once[i].position.y >= poolHeight;
      }
    }
  }

  /** Without forces or impulses, a pass only lifts water to the pool surface. */
  lemma StillPass(s: SolverState, config: PhysicsConfig, dt: real, character: Option<Vec>, pass: nat)
    ensures Pass(s, config, dt, Influence([], character), Still, pass).particles
         == PoolAll(s.particles, PoolHeightOf(config.water))
  {
    var ruled := RulePass(s.particles, config, Still, pass);
    forall i | 0 <= i < |s.particles|
      ensures ruled[i] == PoolAll(s.particles, PoolHeightOf(config.water))[i]
    {
      var p := s.particles[i];
      assert Add(p.velocity, Zero()) == p.velocity;
      assert Add(p.position, Zero()) == p.position;
      var c := PoolClamp(p, PoolHeightOf(config.water));
      assert Add(c.velocity, Zero()) == c.velocity;
    }
  }

  /** Any positive number of still passes is the same single lift to the pool. */
  lemma {:induction false} StillPasses(s: SolverState, config: PhysicsConfig, dt: real, character: Option<Vec>, n: nat)
    requires n > 0
    ensures AfterPasses(s, config, dt, Influence([], character), Still, n).particles
         == PoolAll(s.particles, PoolHeightOf(config.water))
  {
    var infl := Influence([], character);
    var prev := AfterPasses(s, config, dt, infl, Still, n - 1);
    StillPass(prev, config, dt, character, n - 1);
    if n > 1 {
      StillPasses(s, config, dt, character, n - 1);
      PoolAllIdempotent(s.particles, PoolHeightOf(config.water));
    }
  }

  /** A still step: gravity, at most one lift to the pool, then integration. */
  lemma StillStep(s: SolverState, config: PhysicsConfig, delta: real, character: Option<Vec>)
    requires config.iterations > 0
    ensures Step(s, config, delta, Influence([], character), Still).particles
         == IntegrateAll(PoolAll(GravityAll(s.particles, config.gravity, ClampDt(delta)), PoolHeightOf(config.water)),
                         config, ClampDt(delta))
  {
    var dt := ClampDt(delta);
    StillPasses(SolverState(GravityAll(s.particles, config.gravity, dt), s.index), config, dt, character, PassCount(config.iterations));
  }

  /** One particle's state before integration in a still step: pulled by gravity, water lifted to the pool. */
  function StillPulled(p: Particle, config: PhysicsConfig, dt: real): Particle
  {
    var pulled := WithGravity(p, config.gravity, dt);
    if p.material == Water then PoolClamp(pulled, PoolHeightOf(config.water)) else pulled
  }

  /** A still step on a single particle, with dt below the clamp. */
  lemma StillStepSingle(p: Particle, index: Index, config: PhysicsConfig, dt: real)
    requires config.iterations > 0 && dt <= MaxDt
    ensures var r := Step(SolverState([p], index), config, dt, Influence([], None), Still);
      && |r.particles| == 1
      && r.particles[0] == IntegrateParticle(StillPulled(p, config, dt), config, dt)
  {
    StillStep(SolverState([p], index), config, dt, None);
  }

  /** The configuration of the repository's solver tests. */
  const TestConfig: PhysicsConfig := PhysicsConfig(
    Vec(0.0, -9.81, 0.0), 0.016, 2,
    MaterialConfig(2.5, Some(0.9), Some(5.0), Some(0.2), None, None, None, None),
    MaterialConfig(0.2, None, None, None, Some(1.5), Some(0.99), None, None),
    MaterialConfig(1.0, None, None, None, None, None, Some(0.3), Some(0.0)))

  function TestParticle(id: string, material: Material, position: Vec, velocity: Vec): Particle
  {
    Particle(id, position, velocity, 0.1, 1.0, material, Vec(1.0, 1.0, 1.0), false)
  }

  /** Ten units/s is past the test configuration's 5 units/s threshold. */
  lemma TestGlassBreaks(m: Particle, glass: MaterialConfig)
    requires m.material == Glass && !m.shattered && m.velocity == Vec(10.0, -0.15696, 0.0)
    requires ShatterVelocityOf(glass) == 5.0
    ensures Breaks(m, glass)
  {
  }

  /** The test particle does not reach the floor in one 16 ms step, and glass does not fade. */
  lemma TestGlassFlies(p: Particle, fade: real)
    requires p.material == Glass && p.position == Vec(0.0, 1.0, 0.0) && p.velocity == Vec(10.0, -0.15696, 0.0)
    ensures Floored(Faded(Moved(p, 0.016), fade)) == Moved(p, 0.016)
  {
  }

  /** A break keeps a fifth of the velocity under the test restitution. */
  lemma TestGlassRebounds(m: Particle, glass: MaterialConfig)
    requires m.material == Glass && !m.shattered && m.velocity == Vec(10.0, -0.15696, 0.0)
    requires ShatterVelocityOf(glass) == 5.0 && RestitutionOf(glass) == 0.2
    ensures ThresholdShatter(m, glass).shattered
    ensures ThresholdShatter(m, glass).velocity == Vec(2.0, -0.15696 * 0.2, 0.0)
  {
    TestGlassBreaks(m, glass);
  }

  /** The integration half of the glass scenario. */
  lemma FastGlassBreaks(p: Particle, config: PhysicsConfig)
    requires p.material == Glass && !p.shattered && p.position == Vec(0.0, 1.0, 0.0) && p.velocity == Vec(10.0, -0.15696, 0.0)
    requires ShatterVelocityOf(config.glass) == 5.0 && RestitutionOf(config.glass) == 0.2
    ensures IntegrateParticle(p, config, 0.016).shattered
    ensures IntegrateParticle(p, config, 0.016).velocity == Vec(2.0, -0.15696 * 0.2, 0.0)
  {
    var moved := Moved(p, 0.016);
    TestGlassFlies(p, FadeOf(config.smoke));
    TestGlassRebounds(moved, config.glass);
  }

  /** What the scenarios read off the test configuration. */
  lemma TestConfigFacts(config: PhysicsConfig)
    requires config == TestConfig
    ensures config.iterations == 2 && config.gravity == Vec(0.0, -9.81, 0.0)
    ensures ShatterVelocityOf(config.glass) == 5.0 && RestitutionOf(config.glass) == 0.2
    ensures PoolHeightOf(config.water) == 0.0
  {
  }

  /** Gravity for 16 ms on the test particle moving at 10 units/s along x. */
  lemma TestGravity(p: Particle, gravity: Vec)
    requires gravity == Vec(0.0, -9.81, 0.0) && p.velocity == Vec(10.0, 0.0, 0.0)
    ensures WithGravity(p, gravity, 0.016).velocity == Vec(10.0, -0.15696, 0.0)
  {
    assert Scale(gravity, 0.016) == Vec(0.0, -0.15696, 0.0);
  }

  /** A lone glass particle moving at 10 units/s breaks in one 16 ms step and keeps a fifth of its velocity. */
  lemma LoneGlassShatters(glass: Particle, config: PhysicsConfig, index: Index)
    requires glass == TestParticle("glass", Glass, Vec(0.0, 1.0, 0.0), Vec(10.0, 0.0, 0.0))
    requires config == TestConfig
    ensures var r := Step(SolverState([glass], index), config, 0.016, Influence([], None), Still);
      && |r.particles| == 1
      && r.particles[0].shattered
      && r.particles[0].velocity == Vec(2.0, -0.15696 * 0.2, 0.0)
  {
    TestConfigFacts(config);
    StillStepSingle(glass, index, config, 0.016);
    var pulled := StillPulled(glass, config, 0.016);
    assert pulled == WithGravity(glass, config.gravity, 0.016);
    TestGravity(glass, config.gravity);
    FastGlassBreaks(pulled, config);
  }

  /** The repository's pool test: water starting half a unit under the surface ends the step above it. */
  lemma SubmergedWaterSurfaces(water: Particle, config: PhysicsConfig, index: Index)
    requires water == TestParticle("water", Water, Vec(0.0, -0.5, 0.0), Vec(0.0, 0.0, 0.0))
    requires config == TestConfig
    ensures var r := Step(SolverState([water], index), config, 0.016, Influence([], None), Still);
      && |r.particles| == 1
      && r.particles[0].position.y >= PoolHeightOf(config.water)
  {
    StillStepSingle(water, index, config, 0.016);
    var lifted := PoolClamp(WithGravity(water, config.gravity, 0.016), 0.0);
    assert lifted.position.y == 0.0 && lifted.velocity.y == -9.81 * 0.016 * -0.2;
  }

  /**
   * The pool clamp runs before integration, so water resting on the
   * surface sinks below it during the same step: the pool height is not
   * an invariant of the step.
   */
  lemma WaterOnSurfaceSinks(water: Particle, config: PhysicsConfig, index: Index)
    requires water == TestParticle("water", Water, Vec(0.0, 0.0, 0.0), Vec(0.0, 0.0, 0.0))
    requires config == TestConfig
    ensures var r := Step(SolverState([water], index), config, 0.016, Influence([], None), Still);
      && |r.particles| == 1
      && r.particles[0].position.y < PoolHeightOf(config.water)
  {
    StillStepSingle(water, index, config, 0.016);
    var pulled := WithGravity(water, config.gravity, 0.016);
    assert PoolClamp(pulled, 0.0) == pulled;
    assert pulled.velocity.y == -9.81 * 0.016;
  }
}
