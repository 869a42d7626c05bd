/**
 * The discrete particle solver as an object: it owns its particle list and
 * its grid index and updates both in place, pass by pass. Every method is
 * tied to the specification functions of MatterRules.
 */
module MatterSolver {
  import opened Types
  import opened Spatial
  import opened MatterRules

  class SplatMatterSolver {
    const config: PhysicsConfig
    var particles: seq<Particle>
    var index: Index

    /** Every index entry names the slot of a particle with that id. */
    ghost predicate Valid()
      reads this
    {
      IndexSound(index, particles)
    }

    function State(): (s: SolverState)
      reads this
      ensures s.particles == particles && s.index == index
    {
      SolverState(particles, index)
    }

    /** The solver copies the initial particles and files them when there are any. */
    constructor(config: PhysicsConfig, initial: seq<Particle>)
      ensures this.config == config && Valid()
      ensures particles == initial && index == BuildIndex(initial)
    {
      this.config := config;
      particles := [];
      index := map[];
      new;
      if |initial| > 0 {
        SetParticles(initial);
      }
    }

    /** Replace the population and refile it from a cleared index. */
    method SetParticles(ps: seq<Particle>)
      modifies this`particles, this`index
      ensures particles == ps && index == BuildIndex(ps) && Valid()
    {
      particles := ps;
      Rebuild();
    }

    /** Clear the index, then upsert every particle in list order. */
    method Rebuild()
      modifies this`index
      ensures index == BuildIndex(particles) && Valid()
    {
      index := map[];
      var i := 0;
      while i < |particles|
        invariant 0 <= i <= |particles|
        invariant index == IndexUpTo(particles, i)
      {
        index := Upserted(index, particles[i].id, i, KeyOf(particles[i].position, CellSize));
        i := i + 1;
      }
      BuildIndexSound(particles);
    }

    method GetParticles() returns (ps: seq<Particle>)
      ensures ps == particles
    {
      ps := particles;
    }

    /** One in-place pass over the list: slot `i` becomes `f(i, particle)`. */
    method UpdateEach(f: (nat, Particle) -> Particle)
      modifies this`particles
      ensures |particles| == |old(particles)|
      ensures forall i :: 0 <= i < |particles| ==> particles[i] == f(i, old(particles)[i])
    {
      var i := 0;
      while i < |particles|
        invariant 0 <= i <= |particles| == |old(particles)|
        invariant forall j :: 0 <= j < i ==> particles[j] == f(j, old(particles)[j])
        invariant forall j :: i <= j < |particles| ==> particles[j] == old(particles)[j]
      {
        particles := particles[i := f(i, particles[i])];
        i := i + 1;
      }
    }

    /** step(delta, influence): gravity, the constraint passes, then integration. */
    method Step(delta: real, influence: Influence, forces: Forces)
      modifies this`particles, this`index
      ensures State() == MatterRules.Step(old(State()), config, delta, influence, forces)
      ensures old(Valid()) ==> Valid()
    {
      var dt := ClampDt(delta);
      var gravity := config.gravity;
      ghost var start := State();
      UpdateEach((i: nat, p: Particle) => WithGravity(p, gravity, dt));
      assert particles == GravityAll(start.particles, gravity, dt);
      SolveMaterials(dt, influence, forces);
      ghost var solved := State();
      var c := config;
      UpdateEach((i: nat, p: Particle) => IntegrateParticle(p, c, dt));
      assert particles == IntegrateAll(solved.particles, config, dt);
      if IndexSound(start.index, start.particles) {
        StepKeepsSound(start, config, delta, influence, forces);
      }
    }

    /** solveMaterials: `iterations` passes of rebuild, material rules and impulses. */
    method SolveMaterials(dt: real, influence: Influence, forces: Forces)
      modifies this`particles, this`index
      ensures SolverState(particles, index) == AfterPasses(SolverState(old(particles), old(index)), config, dt, influence, forces, PassCount(config.iterations))
    {
      ghost var start := SolverState(particles, index);
      var iter := 0;
      while iter < config.iterations
        invariant 0 <= iter <= PassCount(config.iterations)
        invariant SolverState(particles, index) == AfterPasses(start, config, dt, influence, forces, iter)
      {
        AfterPassesNext(start, config, dt, influence, forces, iter);
        RunPass(dt, influence, forces, iter);
        iter := iter + 1;
      }
      assert iter == PassCount(config.iterations);
    }

    /** One iteration of solveMaterials. */
    method RunPass(dt: real, influence: Influence, forces: Forces, pass: nat)
      modifies this`particles, this`index
      ensures SolverState(particles, index) == Pass(SolverState(old(particles), old(index)), config, dt, influence, forces, pass)
    {
      ghost var before := State();
      Rebuild();
      var c := config;
      UpdateEach((i: nat, p: Particle) => MaterialRule(p, c, forces, pass, i));
      assert particles == RulePass(before.particles, config, forces, pass);
      ApplyImpulses(influence.impulses, dt, forces.sqrt);
    }

    /** Every impulse of the influence in order, its strength scaled by dt. */
    method ApplyImpulses(impulses: seq<Impulse>, dt: real, sqrt: real -> real)
      modifies this`particles
      ensures particles == ImpulsesUpTo(index, old(particles), impulses, dt, sqrt, |impulses|)
    {
      ghost var start := particles;
      var k := 0;
      while k < |impulses|
        invariant 0 <= k <= |impulses|
        invariant particles == ImpulsesUpTo(index, start, impulses, dt, sqrt, k)
      {
        ImpulsesUpToNext(index, start, impulses, dt, sqrt, k);
        ApplyImpulseSphere(impulses[k].origin, impulses[k].radius, impulses[k].strength * dt, sqrt);
        k := k + 1;
      }
    }

    /** applyImpulseSphere: push every particle the index finds within `radius` of `origin`. */
    method ApplyImpulseSphere(origin: Vec, radius: real, strength: real, sqrt: real -> real)
      modifies this`particles
      ensures particles == ImpulseSphere(index, old(particles), origin, radius, strength, sqrt)
    {
      var ps := particles;
      var idx := index;
      UpdateEach((i: nat, p: Particle) =>
        if i < |ps| && Hit(idx, ps, i, origin, radius, None)
        then p.(velocity := Add(p.velocity, ImpulseKick(p, origin, radius, strength, sqrt)))
        else p);
    }

    /** shatter(m, o, r): flag and kick every material-m particle the index finds within `r` of `o`. */
    method Shatter(material: Material, origin: Vec, radius: real, kicks: nat -> Vec)
      requires forall i :: KickInRange(kicks(i))
      modifies this`particles
      ensures particles == MatterRules.Shatter(index, old(particles), material, origin, radius, kicks)
    {
      var ps := particles;
      var idx := index;
      UpdateEach((i: nat, p: Particle) =>
        if i < |ps| && Hit(idx, ps, i, origin, radius, Some(material))
        then p.(shattered := true, velocity := Add(p.velocity, kicks(i)))
        else p);
    }

    /** explode(m, o, force): push material-m particles within 2.5 of `o` away from it. */
    method Explode(material: Material, origin: Vec, force: real, sqrt: real -> real)
      requires RootNonNegative(sqrt)
      modifies this`particles
      ensures particles == MatterRules.Explode(index, old(particles), material, origin, force, sqrt)
    {
      var ps := particles;
      var idx := index;
      UpdateEach((i: nat, p: Particle) =>
        if i < |ps| && Hit(idx, ps, i, origin, ExplodeRadius, Some(material))
        then p.(velocity := Add(p.velocity, ExplodeKick(p, origin, force, sqrt)))
        else p);
    }
  }
}
