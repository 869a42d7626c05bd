/**
 * The step-level rules of the material solver as functions on particle
 * sequences: the dt clamp, gravity, the per-material pass rules, the
 * post-integration rules (smoke fade floor, world floor, glass shatter
 * threshold), and the targeted operations (shatter, explode, impulse).
 *
 * The solver's grid index is kept as the reverse lookup of its spatial
 * hash: each particle id maps to the slot of the particle filed under it
 * and the cell key it was filed under when the index was last rebuilt.
 * Queries scan cells by those recorded keys but test the particles'
 * CURRENT positions, as the source does (its hash holds references to
 * the live particles).
 *
 * Force magnitudes (cohesion correction, repulsion, centroid pull) are not
 * modelled: they arrive as abstract deltas in a `Forces` value, together
 * with the platform square root, of which only non-negativity is assumed.
 */
module MatterRules {
  import opened Types
  import opened Spatial

  /** The solver's fixed grid cell size. */
  const CellSize: real := 0.5
  /** Largest time step a single `step` integrates. */
  const MaxDt: real := 0.033
  /** The world floor and the damping of a floor bounce. */
  const FloorY: real := -4.0
  const FloorBounce: real := -0.1
  /** Damping of a bounce off the water pool surface. */
  const PoolBounce: real := -0.2
  /** Smoke never fades below this opacity. */
  const MinSmokeOpacity: real := 0.05
  /** The fixed radius of an explosion. */
  const ExplodeRadius: real := 2.5
  /** Guards added before dividing by a distance. */
  const ImpulseEpsilon: real := 0.000001
  const ExplodeEpsilon: real := 0.000001

  datatype Impulse = Impulse(origin: Vec, radius: real, strength: real)

  /** Per-step external input; the character position only feeds the smoke deltas. */
  datatype Influence = Influence(impulses: seq<Impulse>, characterPosition: Option<Vec>)

  /** A glass cohesion correction: a position change and its velocity counterpart. */
  datatype Correction = Correction(position: Vec, velocity: Vec)

  /**
   * The numerics the model leaves abstract, indexed by (pass, slot): the
   * glass cohesion correction, the smoke repulsion velocity change (from
   * neighbours and the character), the water centroid pull, and the
   * square root used by impulses and explosions.
   */
  datatype Forces = Forces(
    glass: (nat, nat) -> Correction,
    smoke: (nat, nat) -> Vec,
    water: (nat, nat) -> Vec,
    sqrt: real -> real)

  ghost predicate RootNonNegative(sqrt: real -> real)
  {
    forall x :: x >= 0.0 ==> sqrt(x) >= 0.0
  }

  /** The index as the solver keeps it: id -> (slot, cell key at rebuild). */
  type Index = map<string, Entry<nat>>

  datatype SolverState = SolverState(particles: seq<Particle>, index: Index)

  // ---------------------------------------------------------------- shape

  /** What no rule of the solver changes, and the one-way shattered flag. */
  predicate Preserved(a: Particle, b: Particle)
  {
    && b.id == a.id && b.material == a.material && b.scale == a.scale && b.color == a.color
    && (a.shattered ==> b.shattered)
  }

  /** Same population: same length, and every slot keeps its particle's identity. */
  predicate SameShape(before: seq<Particle>, after: seq<Particle>)
  {
    |after| == |before| && forall i :: 0 <= i < |before| ==> Preserved(before[i], after[i])
  }

  lemma SameShapeTrans(a: seq<Particle>, b: seq<Particle>, c: seq<Particle>)
    requires SameShape(a, b) && SameShape(b, c)
    ensures SameShape(a, c)
  {
  }

  // ---------------------------------------------------------------- index

  /** Every entry of the index names a slot that holds a particle of that id. */
  ghost predicate IndexSound(index: Index, ps: seq<Particle>)
  {
    forall id :: id in index ==> index[id].item < |ps| && ps[index[id].item].id == id
  }

  /** The index as rebuilt from `ps[..n]`: clear, then upsert each particle in order. */
  function IndexUpTo(ps: seq<Particle>, n: nat): Index
    requires n <= |ps|
  {
    if n == 0 then map[]
    else Upserted(IndexUpTo(ps, n - 1), ps[n - 1].id, n - 1, KeyOf(ps[n - 1].position, CellSize))
  }

  function BuildIndex(ps: seq<Particle>): Index
  {
    IndexUpTo(ps, |ps|)
  }

  /** A freshly built index: every id of the population is filed, under a slot of that id, by its current cell. */
  ghost predicate FreshUpTo(index: Index, ps: seq<Particle>, n: nat)
    requires n <= |ps|
  {
    && (forall i :: 0 <= i < n ==> ps[i].id in index)
    && (forall id :: id in index ==>
          && index[id].item < n
          && ps[index[id].item].id == id
          && index[id].cellKey == KeyOf(ps[index[id].item].position, CellSize))
  }

  lemma {:induction false} IndexUpToFresh(ps: seq<Particle>, n: nat)
    requires n <= |ps|
    ensures FreshUpTo(IndexUpTo(ps, n), ps, n)
  {
    if n > 0 {
      var prev := IndexUpTo(ps, n - 1);
      IndexUpToFresh(ps, n - 1);
      var p := ps[n - 1];
      var key := KeyOf(p.position, CellSize);
      var index: Index := Upserted<nat>(prev, p.id, n - 1, key);
      forall i | 0 <= i < n
        ensures ps[i].id in index
      {
        if i < n - 1 {
          assert ps[i].id in prev;
        }
      }
      forall id | id in index
        ensures index[id].item < n && ps[index[id].item].id == id
        ensures index[id].cellKey == KeyOf(ps[index[id].item].position, CellSize)
      {
        if id != p.id {
          assert index[id] == prev[id];
        } else if !(p.id in prev && prev[p.id].cellKey == key) {
          assert index[id] == Entry(n - 1, key);
        }
      }
    }
  }

  /** A freshly built index is sound. */
  lemma BuildIndexSound(ps: seq<Particle>)
    ensures IndexSound(BuildIndex(ps), ps)
  {
    IndexUpToFresh(ps, |ps|);
  }

  /** A particle of the population is "hit" by a query when the index files it in a scanned cell and it matches now. */
  predicate Hit(index: Index, ps: seq<Particle>, i: nat, origin: Vec, radius: real, material: Option<Material>)
    requires i < |ps|
  {
    && ps[i].id in index
    && index[ps[i].id].item == i
    && InReach(index[ps[i].id].cellKey, KeyOf(origin, CellSize), Range(radius, CellSize))
    && Matches(ps[i], origin, radius, material)
  }

  ghost predicate UniqueIds(ps: seq<Particle>)
  {
    forall i, j :: 0 <= i < j < |ps| ==> ps[i].id != ps[j].id
  }

  /**
   * On a freshly built index over particles with distinct ids, a query hits
   * exactly the particles the brute-force filter accepts.
   */
  lemma FreshQueryExact(ps: seq<Particle>, origin: Vec, radius: real, material: Option<Material>, i: nat)
    requires UniqueIds(ps) && i < |ps| && radius >= 0.0
    ensures Hit(BuildIndex(ps), ps, i, origin, radius, material) <==> Matches(ps[i], origin, radius, material)
  {
    var index := BuildIndex(ps);
    IndexUpToFresh(ps, |ps|);
    assert ps[i].id in index;
    var j := index[ps[i].id].item;
    assert ps[j].id == ps[i].id;
    assert j == i;
    if Matches(ps[i], origin, radius, material) {
      ReachCovers(ps[i].position, origin, radius, CellSize);
    }
  }

  // ---------------------------------------------------------------- step rules

  /** dt = min(delta, 0.033): the excess of a long frame is dropped. */
  function ClampDt(delta: real): (dt: real)
    ensures dt <= MaxDt
    ensures delta <= MaxDt ==> dt == delta
    ensures delta > MaxDt ==> dt == MaxDt
  {
    if delta < MaxDt then delta else MaxDt
  }

  function WithGravity(p: Particle, gravity: Vec, dt: real): (q: Particle)
    ensures Preserved(p, q) && q.position == p.position && q.opacity == p.opacity
    ensures q.velocity == Add(p.velocity, Scale(gravity, dt))
    ensures q.shattered == p.shattered
  {
    p.(velocity := Add(p.velocity, Scale(gravity, dt)))
  }

  function GravityAll(ps: seq<Particle>, gravity: Vec, dt: real): (r: seq<Particle>)
    ensures SameShape(ps, r)
    ensures forall i :: 0 <= i < |ps| ==> r[i] == WithGravity(ps[i], gravity, dt)
  {
    seq(|ps|, i requires 0 <= i < |ps| => WithGravity(ps[i], gravity, dt))
  }

  /** The water rule's first half: below the pool surface, lift to it and damp the bounce. */
  function PoolClamp(p: Particle, poolHeight: real): (q: Particle)
    ensures Preserved(p, q) && q.opacity == p.opacity && q.shattered == p.shattered
    ensures q.position.y >= poolHeight
    ensures p.position.y < poolHeight ==> q.position.y == poolHeight && q.velocity.y == p.velocity.y * PoolBounce
    ensures p.position.y >= poolHeight ==> q == p
    ensures q.position.x == p.position.x && q.position.z == p.position.z
    ensures q.velocity.x == p.velocity.x && q.velocity.z == p.velocity.z
  {
    if p.position.y < poolHeight then
      p.(position := p.position.(y := poolHeight), velocity := p.velocity.(y := p.velocity.y * PoolBounce))
    else p
  }

  /**
   * One particle's material rule in pass `pass`: glass takes its cohesion
   * correction, smoke its repulsion, water the pool clamp and then its
   * centroid pull. No rule touches opacity or the shattered flag.
   */
  function MaterialRule(p: Particle, config: PhysicsConfig, forces: Forces, pass: nat, slot: nat): (q: Particle)
    ensures Preserved(p, q) && q.opacity == p.opacity && q.shattered == p.shattered
    ensures p.material == Smoke ==> q.position == p.position
    ensures p.material == Water ==>
              PoolClamp(p, PoolHeightOf(config.water)).position == q.position
              && q.position.y >= PoolHeightOf(config.water)
  {
    match p.material
    case Glass =>
      var c := forces.glass(pass, slot);
      p.(position := Add(p.position, c.position), velocity := Add(p.velocity, c.velocity))
    case Smoke =>
      p.(velocity := Add(p.velocity, forces.smoke(pass, slot)))
    case Water =>
      var c := PoolClamp(p, PoolHeightOf(config.water));
      c.(velocity := Add(c.velocity, forces.water(pass, slot)))
  }

  function RulePass(ps: seq<Particle>, config: PhysicsConfig, forces: Forces, pass: nat): (r: seq<Particle>)
    ensures SameShape(ps, r)
    ensures forall i :: 0 <= i < |ps| ==> r[i] == MaterialRule(ps[i], config, forces, pass, i)
  {
    seq(|ps|, i requires 0 <= i < |ps| => MaterialRule(ps[i], config, forces, pass, i))
  }

  /** The linear falloff max(0, 1 - distance / radius); a zero radius gives 0. */
  function Falloff(distance: real, radius: real): (f: real)
    ensures f >= 0.0
    ensures radius > 0.0 && distance >= 0.0 ==> f <= 1.0
    ensures radius > 0.0 && distance >= radius ==> f == 0.0
    ensures radius > 0.0 && 0.0 <= distance < radius ==> f == 1.0 - distance / radius
  {
    RatioBelowOne(distance, radius);
    if radius == 0.0 then 0.0
    else if 1.0 - distance / radius < 0.0 then 0.0
    else 1.0 - distance / radius
  }

  lemma NegativeFactor(a: real, b: real)
    ensures b > 0.0 && a * b < 0.0 ==> a < 0.0
  {
    if a > 0.0 && b > 0.0 {
      MulPos(a, b);
    }
  }

  lemma RatioBelowOne(d: real, r: real)
    ensures r > 0.0 && 0.0 <= d < r ==> d / r < 1.0
  {
    if r > 0.0 && 0.0 <= d < r {
      var q := d / r;
      assert (q - 1.0) * r == d - r;
      NegativeFactor(q - 1.0, r);
    }
  }

  lemma FalloffBounds(distance: real, radius: real)
    requires radius > 0.0 && distance >= 0.0
    ensures 0.0 <= Falloff(distance, radius) <= 1.0
  {
  }

  /** The velocity change an impulse gives a particle: the separation scaled by strength and falloff. */
  function ImpulseKick(p: Particle, origin: Vec, radius: real, strength: real, sqrt: real -> real): Vec
  {
    var d := Sub(p.position, origin);
    Scale(d, strength * Falloff(sqrt(NormSq(d) + ImpulseEpsilon), radius))
  }

  /** applyImpulseSphere: every hit particle (any material) gets its kick; nothing else changes. */
  function ImpulseSphere(index: Index, ps: seq<Particle>, origin: Vec, radius: real, strength: real, sqrt: real -> real): (r: seq<Particle>)
    ensures SameShape(ps, r)
    ensures forall i :: 0 <= i < |ps| && Hit(index, ps, i, origin, radius, None) ==>
              r[i] == ps[i].(velocity := Add(ps[i].velocity, ImpulseKick(ps[i], origin, radius, strength, sqrt)))
    ensures forall i :: 0 <= i < |ps| && !Hit(index, ps, i, origin, radius, None) ==> r[i] == ps[i]
    ensures forall i :: 0 <= i < |ps| ==>
              r[i].position == ps[i].position && r[i].opacity == ps[i].opacity && r[i].shattered == ps[i].shattered
  {
    seq(|ps|, i requires 0 <= i < |ps| =>
      if Hit(index, ps, i, origin, radius, None)
      then ps[i].(velocity := Add(ps[i].velocity, ImpulseKick(ps[i], origin, radius, strength, sqrt)))
      else ps[i])
  }

  /** The first `k` impulses of the influence, each scaled by dt, applied in order. */
  function ImpulsesUpTo(index: Index, ps: seq<Particle>, impulses: seq<Impulse>, dt: real, sqrt: real -> real, k: nat): (r: seq<Particle>)
    requires k <= |impulses|
    ensures SameShape(ps, r)
    ensures forall i :: 0 <= i < |ps| ==>
              r[i].position == ps[i].position && r[i].opacity == ps[i].opacity && r[i].shattered == ps[i].shattered
  {
    if k == 0 then ps
    else
      var prev := ImpulsesUpTo(index, ps, impulses, dt, sqrt, k - 1);
      var imp := impulses[k - 1];
      ImpulseSphere(index, prev, imp.origin, imp.radius, imp.strength * dt, sqrt)
  }

  lemma ImpulsesUpToNext(index: Index, ps: seq<Particle>, impulses: seq<Impulse>, dt: real, sqrt: real -> real, k: nat)
    requires k < |impulses|
    ensures ImpulsesUpTo(index, ps, impulses, dt, sqrt, k + 1)
         == ImpulseSphere(index, ImpulsesUpTo(index, ps, impulses, dt, sqrt, k),
                          impulses[k].origin, impulses[k].radius, impulses[k].strength * dt, sqrt)
  {
  }

  /** One constraint pass: rebuild the index, run every particle's rule, then every impulse. */
  function Pass(s: SolverState, config: PhysicsConfig, dt: real, influence: Influence, forces: Forces, pass: nat): (r: SolverState)
    ensures r.index == BuildIndex(s.particles)
  {
    var index := BuildIndex(s.particles);
    var ruled := RulePass(s.particles, config, forces, pass);
    var impulses := influence.impulses;
    var kicked := ImpulsesUpTo(index, ruled, impulses, dt, forces.sqrt, |impulses|);
    SolverState(kicked, index)
  }

  /** A pass keeps the population. */
  lemma PassShape(s: SolverState, config: PhysicsConfig, dt: real, influence: Influence, forces: Forces, pass: nat)
    ensures SameShape(s.particles, Pass(s, config, dt, influence, forces, pass).particles)
  {
    var ruled := RulePass(s.particles, config, forces, pass);
    SameShapeTrans(s.particles, ruled, Pass(s, config, dt, influence, forces, pass).particles);
  }

  lemma ShapeExtends(ps: seq<Particle>, s: SolverState, config: PhysicsConfig, dt: real, influence: Influence, forces: Forces, pass: nat)
    requires SameShape(ps, s.particles)
    ensures SameShape(ps, Pass(s, config, dt, influence, forces, pass).particles)
  {
    PassShape(s, config, dt, influence, forces, pass);
    SameShapeTrans(ps, s.particles, Pass(s, config, dt, influence, forces, pass).particles);
  }

  /** The state after the first `n` passes. */
  function AfterPasses(s: SolverState, config: PhysicsConfig, dt: real, influence: Influence, forces: Forces, n: nat): (r: SolverState)
    ensures n == 0 ==> r == s
  {
    if n == 0 then s
    else
      var prev := AfterPasses(s, config, dt, influence, forces, n - 1);
      Pass(prev, config, dt, influence, forces, n - 1)
  }

  /** Any number of passes keeps the population. */
  lemma {:induction false} PassesKeepShape(ps: seq<Particle>, s: SolverState, config: PhysicsConfig, dt: real, influence: Influence, forces: Forces, n: nat)
    requires SameShape(ps, s.particles)
    ensures SameShape(ps, AfterPasses(s, config, dt, influence, forces, n).particles)
  {
    if n > 0 {
      var prev := AfterPasses(s, config, dt, influence, forces, n - 1);
      PassesKeepShape(ps, s, config, dt, influence, forces, n - 1);
      ShapeExtends(ps, prev, config, dt, influence, forces, n - 1);
    }
  }

  /** A pass leaves a freshly built, hence sound, index behind. */
  lemma PassSound(s: SolverState, config: PhysicsConfig, dt: real, influence: Influence, forces: Forces, pass: nat)
    ensures IndexSound(Pass(s, config, dt, influence, forces, pass).index, Pass(s, config, dt, influence, forces, pass).particles)
  {
    var r := Pass(s, config, dt, influence, forces, pass);
    BuildIndexSound(s.particles);
    PassShape(s, config, dt, influence, forces, pass);
    SameShapeKeepsSound(r.index, s.particles, r.particles);
  }

  /** Any number of passes keeps a sound index sound. */
  lemma {:induction false} AfterPassesSound(s: SolverState, config: PhysicsConfig, dt: real, influence: Influence, forces: Forces, n: nat)
    requires IndexSound(s.index, s.particles)
    ensures IndexSound(AfterPasses(s, config, dt, influence, forces, n).index, AfterPasses(s, config, dt, influence, forces, n).particles)
  {
    if n > 0 {
      var prev := AfterPasses(s, config, dt, influence, forces, n - 1);
      PassSound(prev, config, dt, influence, forces, n - 1);
    }
  }

  lemma AfterPassesNext(s: SolverState, config: PhysicsConfig, dt: real, influence: Influence, forces: Forces, n: nat)
    ensures AfterPasses(s, config, dt, influence, forces, n + 1)
         == Pass(AfterPasses(s, config, dt, influence, forces, n), config, dt, influence, forces, n)
  {
  }

  /** How many passes `iterations` asks for (a loop `iter < iterations`). */
  function PassCount(iterations: int): nat
  {
    if iterations < 0 then 0 else iterations
  }

  // ---------------------------------------------------------------- integration

  function Moved(p: Particle, dt: real): (q: Particle)
    ensures q.position == Add(p.position, Scale(p.velocity, dt))
  {
    p.(position := Add(p.position, Scale(p.velocity, dt)))
  }

  /** Smoke opacity is multiplied by the fade factor, floored at 0.05. */
  function Faded(p: Particle, fade: real): (q: Particle)
    ensures p.material == Smoke ==> q.opacity >= MinSmokeOpacity
    ensures p.material == Smoke && p.opacity * fade >= MinSmokeOpacity ==> q.opacity == p.opacity * fade
    ensures p.material != Smoke ==> q == p
    ensures q == p.(opacity := q.opacity)
  {
    if p.material != Smoke then p
    else if p.opacity * fade < MinSmokeOpacity then p.(opacity := MinSmokeOpacity)
    else p.(opacity := p.opacity * fade)
  }

  /** Below the world floor: clamp to it and reflect the vertical velocity, damped. */
  function Floored(p: Particle): (q: Particle)
    ensures q.position.y >= FloorY
    ensures p.position.y < FloorY ==> q.position.y == FloorY && q.velocity.y == p.velocity.y * FloorBounce
    ensures p.position.y >= FloorY ==> q == p
    ensures q == p.(position := q.position, velocity := q.velocity)
    ensures q.position.x == p.position.x && q.position.z == p.position.z
    ensures q.velocity.x == p.velocity.x && q.velocity.z == p.velocity.z
  {
    if p.position.y < FloorY then
      p.(position := p.position.(y := FloorY), velocity := p.velocity.(y := p.velocity.y * FloorBounce))
    else p
  }

  /** The glass threshold: an unshattered glass particle faster than the threshold breaks and is slowed by restitution. */
  predicate Breaks(p: Particle, glass: MaterialConfig)
  {
    var threshold := ShatterVelocityOf(glass);
    p.material == Glass && !p.shattered && NormSq(p.velocity) > threshold * threshold
  }

  function ThresholdShatter(p: Particle, glass: MaterialConfig): (q: Particle)
    ensures Breaks(p, glass) ==> q.shattered && q.velocity == Scale(p.velocity, RestitutionOf(glass))
    ensures !Breaks(p, glass) ==> q == p
    ensures q == p.(shattered := q.shattered, velocity := q.velocity)
    ensures p.shattered ==> q.shattered
  {
    if Breaks(p, glass) then p.(shattered := true, velocity := Scale(p.velocity, RestitutionOf(glass)))
    else p
  }

  /** integrate, for one particle: move, fade smoke, floor clamp, glass threshold. */
  function IntegrateParticle(p: Particle, config: PhysicsConfig, dt: real): (q: Particle)
    ensures Preserved(p, q)
    ensures q.position.y >= FloorY
    ensures p.material == Smoke ==> q.opacity >= MinSmokeOpacity
    ensures p.material != Smoke ==> q.opacity == p.opacity
    ensures p.material != Glass ==> q.shattered == p.shattered
    ensures Breaks(Floored(Moved(p, dt)), config.glass) ==> q.shattered
  {
    ThresholdShatter(Floored(Faded(Moved(p, dt), FadeOf(config.smoke))), config.glass)
  }

  function IntegrateAll(ps: seq<Particle>, config: PhysicsConfig, dt: real): (r: seq<Particle>)
    ensures SameShape(ps, r)
    ensures forall i :: 0 <= i < |ps| ==> r[i] == IntegrateParticle(ps[i], config, dt)
  {
    seq(|ps|, i requires 0 <= i < |ps| => IntegrateParticle(ps[i], config, dt))
  }

  lemma IntegrateKeepsShape(ps: seq<Particle>, solved: seq<Particle>, config: PhysicsConfig, dt: real)
    requires SameShape(ps, solved)
    ensures SameShape(ps, IntegrateAll(solved, config, dt))
  {
    SameShapeTrans(ps, solved, IntegrateAll(solved, config, dt));
  }

  /**
   * One full `step(delta, influence)`: clamp dt, apply gravity, run the
   * passes, integrate. The population keeps its size and identities, no
   * particle un-shatters, every particle ends on or above the world floor
   * and every smoke particle at or above the opacity floor.
   */
  function Step(s: SolverState, config: PhysicsConfig, delta: real, influence: Influence, forces: Forces): (r: SolverState)
    ensures SameShape(s.particles, r.particles)
    ensures forall i :: 0 <= i < |r.particles| ==> r.particles[i].position.y >= FloorY
    ensures forall i :: 0 <= i < |r.particles| && r.particles[i].material == Smoke ==>
              r.particles[i].opacity >= MinSmokeOpacity
    ensures config.iterations <= 0 ==> r.index == s.index
  {
    var dt := ClampDt(delta);
    var pulled := SolverState(GravityAll(s.particles, config.gravity, dt), s.index);
    var solved := AfterPasses(pulled, config, dt, influence, forces, PassCount(config.iterations));
    PassesKeepShape(s.particles, pulled, config, dt, influence, forces, PassCount(config.iterations));
    IntegrateKeepsShape(s.particles, solved.particles, config, dt);
    SolverState(IntegrateAll(solved.particles, config, dt), solved.index)
  }

  /** The index a step leaves behind still names, for each id, a slot holding that id. */
  lemma StepKeepsSound(s: SolverState, config: PhysicsConfig, delta: real, influence: Influence, forces: Forces)
    requires IndexSound(s.index, s.particles)
    ensures IndexSound(Step(s, config, delta, influence, forces).index, Step(s, config, delta, influence, forces).particles)
  {
    var dt := ClampDt(delta);
    var pulled := SolverState(GravityAll(s.particles, config.gravity, dt), s.index);
    var n := PassCount(config.iterations);
    AfterPassesSound(pulled, config, dt, influence, forces, n);
    var solved := AfterPasses(pulled, config, dt, influence, forces, n);
    assert SameShape(solved.particles, IntegrateAll(solved.particles, config, dt));
  }

  // ---------------------------------------------------------------- targeted operations

  /** Each random kick of `shatter`: x and z in [-5, 5), y in [0, 8). */
  predicate KickInRange(v: Vec)
  {
    -5.0 <= v.x < 5.0 && 0.0 <= v.y < 8.0 && -5.0 <= v.z < 5.0
  }

  /** shatter(m, o, r): every hit particle of material m is flagged and kicked; nothing else changes. */
  function Shatter(index: Index, ps: seq<Particle>, material: Material, origin: Vec, radius: real, kicks: nat -> Vec): (r: seq<Particle>)
    ensures SameShape(ps, r)
    ensures forall i :: 0 <= i < |ps| && Hit(index, ps, i, origin, radius, Some(material)) ==>
              r[i] == ps[i].(shattered := true, velocity := Add(ps[i].velocity, kicks(i)))
    ensures forall i :: 0 <= i < |ps| && !Hit(index, ps, i, origin, radius, Some(material)) ==> r[i] == ps[i]
    ensures forall i :: 0 <= i < |ps| && r[i] != ps[i] ==>
              ps[i].material == material && Within(ps[i].position, origin, radius)
  {
    seq(|ps|, i requires 0 <= i < |ps| =>
      if Hit(index, ps, i, origin, radius, Some(material))
      then ps[i].(shattered := true, velocity := Add(ps[i].velocity, kicks(i)))
      else ps[i])
  }

  /** The explosion's velocity change: the separation scaled by force / distance. */
  function ExplodeKick(p: Particle, origin: Vec, force: real, sqrt: real -> real): Vec
    requires RootNonNegative(sqrt)
  {
    var d := Sub(p.position, origin);
    Scale(d, force / (sqrt(NormSq(d)) + ExplodeEpsilon))
  }

  /** explode(m, o, force): only material-m particles within the fixed radius 2.5 are pushed. */
  function Explode(index: Index, ps: seq<Particle>, material: Material, origin: Vec, force: real, sqrt: real -> real): (r: seq<Particle>)
    requires RootNonNegative(sqrt)
    ensures SameShape(ps, r)
    ensures forall i :: 0 <= i < |ps| && Hit(index, ps, i, origin, ExplodeRadius, Some(material)) ==>
              r[i] == ps[i].(velocity := Add(ps[i].velocity, ExplodeKick(ps[i], origin, force, sqrt)))
    ensures forall i :: 0 <= i < |ps| && !Hit(index, ps, i, origin, ExplodeRadius, Some(material)) ==> r[i] == ps[i]
    ensures forall i :: 0 <= i < |ps| && r[i] != ps[i] ==>
              ps[i].material == material && Within(ps[i].position, origin, ExplodeRadius)
  {
    seq(|ps|, i requires 0 <= i < |ps| =>
      if Hit(index, ps, i, origin, ExplodeRadius, Some(material))
      then ps[i].(velocity := Add(ps[i].velocity, ExplodeKick(ps[i], origin, force, sqrt)))
      else ps[i])
  }

  /** Particles flagged shattered, across all materials. */
  function CountShattered(ps: seq<Particle>): (n: nat)
    ensures n <= |ps|
  {
    if ps == [] then 0 else (if ps[|ps| - 1].shattered then 1 else 0) + CountShattered(ps[..|ps| - 1])
  }

  /** Particles of material `m` flagged shattered. */
  function CountShatteredOf(ps: seq<Particle>, m: Material): (n: nat)
    ensures n <= |ps|
  {
    if ps == [] then 0
    else (if ps[|ps| - 1].shattered && ps[|ps| - 1].material == m then 1 else 0) + CountShatteredOf(ps[..|ps| - 1], m)
  }

  /**
   * The per-material count never exceeds the all-material count, and the
   * two agree exactly when no particle of another material is shattered.
   */
  lemma {:induction false} CountShatteredOfAtMost(ps: seq<Particle>, m: Material)
    ensures CountShatteredOf(ps, m) <= CountShattered(ps)
    ensures CountShatteredOf(ps, m) == CountShattered(ps) <==>
              (forall i :: 0 <= i < |ps| && ps[i].shattered ==> ps[i].material == m)
  {
    if ps != [] {
      var init := ps[..|ps| - 1];
      CountShatteredOfAtMost(init, m);
      assert forall i :: 0 <= i < |init| ==> init[i] == ps[i];
    }
  }

  /** Solver rules only ever set the shattered flag, so no per-material count drops. */
  lemma {:induction false} CountShatteredOfGrows(a: seq<Particle>, b: seq<Particle>, m: Material)
    requires SameShape(a, b)
    ensures CountShatteredOf(a, m) <= CountShatteredOf(b, m)
  {
    if a != [] {
      var n := |a| - 1;
      assert SameShape(a[..n], b[..n]) by {
        assert forall i :: 0 <= i < n ==> a[..n][i] == a[i] && b[..n][i] == b[i];
      }
      CountShatteredOfGrows(a[..n], b[..n], m);
      assert Preserved(a[n], b[n]);
    }
  }

  /** An index stays sound when the slots keep their ids. */
  lemma SameShapeKeepsSound(index: Index, a: seq<Particle>, b: seq<Particle>)
    requires SameShape(a, b) && IndexSound(index, a)
    ensures IndexSound(index, b)
  {
  }
}
