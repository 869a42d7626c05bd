/**
 * Shared records of the scene core: vectors, particles, the physics
 * configuration and its documented defaults, and a small Option type.
 */
module Types {

  datatype Option<T> = None | Some(value: T) {
    function GetOr(default: T): T
    {
      match this
      case Some(v) => v
      case None => default
    }
  }

  /** A 3-vector of world coordinates, velocities or colours. */
  datatype Vec = Vec(x: real, y: real, z: real)

  function Add(a: Vec, b: Vec): Vec
  {
    Vec(a.x + b.x, a.y + b.y, a.z + b.z)
  }

  function Sub(a: Vec, b: Vec): Vec
  {
    Vec(a.x - b.x, a.y - b.y, a.z - b.z)
  }

  function Scale(a: Vec, k: real): Vec
  {
    Vec(a.x * k, a.y * k, a.z * k)
  }

  function Dot(a: Vec, b: Vec): real
  {
    a.x * b.x + a.y * b.y + a.z * b.z
  }

  /** Squared length of `a`, the solver's "speed" and squared distance. */
  function NormSq(a: Vec): (r: real)
    ensures r >= 0.0
  {
    a.x * a.x + a.y * a.y + a.z * a.z
  }

  lemma MulPos(a: real, b: real)
    requires a > 0.0 && b > 0.0
    ensures a * b > 0.0
  {
  }

  lemma Square(a: real)
    ensures a * a >= 0.0
  {
  }

  function Zero(): Vec
  {
    Vec(0.0, 0.0, 0.0)
  }

  datatype Material = Glass | Smoke | Water

  /**
   * One splat particle. The optional `shattered` flag of the source is a
   * plain boolean here; an absent flag reads as false.
   */
  datatype Particle = Particle(
    id: string,
    position: Vec,
    velocity: Vec,
    scale: real,
    opacity: real,
    material: Material,
    color: Vec,
    shattered: bool)

  /** Per-material parameters; every field but `density` may be absent. */
  datatype MaterialConfig = MaterialConfig(
    density: real,
    cohesion: Option<real>,
    shatterVelocity: Option<real>,
    restitution: Option<real>,
    repulsion: Option<real>,
    fade: Option<real>,
    surfaceTension: Option<real>,
    poolHeight: Option<real>)

  datatype PhysicsConfig = PhysicsConfig(
    gravity: Vec,
    timeStep: real,
    iterations: int,
    glass: MaterialConfig,
    smoke: MaterialConfig,
    water: MaterialConfig)

  function MaterialConfigOf(config: PhysicsConfig, m: Material): (c: MaterialConfig)
    ensures m == Glass ==> c == config.glass
    ensures m == Smoke ==> c == config.smoke
    ensures m == Water ==> c == config.water
  {
    match m
    case Glass => config.glass
    case Smoke => config.smoke
    case Water => config.water
  }

  // The documented default of every optional material parameter.
  const DefaultCohesion: real := 0.5
  const DefaultShatterVelocity: real := 5.0
  const DefaultRestitution: real := 0.2
  const DefaultRepulsion: real := 1.0
  const DefaultFade: real := 1.0
  const DefaultSurfaceTension: real := 0.2
  const DefaultPoolHeight: real := 0.0

  /** An absent parameter resolves to its default; a present one (even 0) is kept. */
  function Resolve(field: Option<real>, default: real): (r: real)
    ensures field.None? ==> r == default
    ensures field.Some? ==> r == field.value
  {
    field.GetOr(default)
  }

  function ShatterVelocityOf(c: MaterialConfig): real { Resolve(c.shatterVelocity, DefaultShatterVelocity) }
  function RestitutionOf(c: MaterialConfig): real { Resolve(c.restitution, DefaultRestitution) }
  function FadeOf(c: MaterialConfig): real { Resolve(c.fade, DefaultFade) }
  function PoolHeightOf(c: MaterialConfig): real { Resolve(c.poolHeight, DefaultPoolHeight) }
  function CohesionOf(c: MaterialConfig): real { Resolve(c.cohesion, DefaultCohesion) }
  function RepulsionOf(c: MaterialConfig): real { Resolve(c.repulsion, DefaultRepulsion) }
  function SurfaceTensionOf(c: MaterialConfig): real { Resolve(c.surfaceTension, DefaultSurfaceTension) }

  /** A configuration that leaves every optional field out uses every default. */
  lemma DefaultsWhenAbsent(c: MaterialConfig)
    requires c.cohesion.None? && c.shatterVelocity.None? && c.restitution.None?
    requires c.repulsion.None? && c.fade.None? && c.surfaceTension.None? && c.poolHeight.None?
    ensures CohesionOf(c) == 0.5 && ShatterVelocityOf(c) == 5.0 && RestitutionOf(c) == 0.2
    ensures RepulsionOf(c) == 1.0 && FadeOf(c) == 1.0 && SurfaceTensionOf(c) == 0.2
    ensures PoolHeightOf(c) == 0.0
  {
  }
}
