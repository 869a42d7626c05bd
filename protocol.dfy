/**
 * The messages between the engine and its simulation worker, the
 * notifications the engine emits, and what one command does to a hosted
 * solver, shared by the inline path and the worker.
 */
module Protocol {
  import opened Types
  import opened MatterRules

  /** What the engine posts to the worker. */
  datatype Command =
    | Init(config: PhysicsConfig, particles: seq<Particle>)
    | StepSim(delta: real, influence: Influence)
    | Reset(particles: seq<Particle>)
    | ShatterAt(material: Material, origin: Vec, radius: real)
    | ExplodeAt(material: Material, origin: Vec, force: real)
    | ImpulseAt(origin: Vec, radius: real, strength: real)

  /** A message as the worker receives it: a known command, or any other message type. */
  datatype Incoming = Known(command: Command) | Unrecognised(kind: string)

  /** What the worker posts back. */
  datatype Response =
    | StateOf(particles: seq<Particle>)
    | ShatterCount(material: Material, count: nat)

  /** The engine's "update" and "shatter" events. */
  datatype Notification =
    | Update(particles: seq<Particle>)
    | Shattered(material: Material, count: nat)

  /** A solver as its owner sees it: the configuration it was built with and its state. */
  datatype Hosted = Hosted(config: PhysicsConfig, state: SolverState)

  /** Only shatter draws kicks; every other command is given these. */
  const NoKicks: nat -> Vec := (i: nat) => Zero()

  /** A freshly constructed solver over `ps`. */
  function Install(config: PhysicsConfig, ps: seq<Particle>): (h: Hosted)
    ensures h.config == config && h.state.particles == ps
    ensures IndexSound(h.state.index, h.state.particles)
  {
    BuildIndexSound(ps);
    Hosted(config, SolverState(ps, BuildIndex(ps)))
  }

  /** What every command except `init` does to a hosted solver. */
  function Apply(h: Hosted, c: Command, forces: Forces, kicks: nat -> Vec): (r: Hosted)
    requires !c.Init? && RootNonNegative(forces.sqrt)
    ensures r.config == h.config
    ensures c.Reset? ==> r == Install(h.config, c.particles)
    ensures !c.Reset? ==> SameShape(h.state.particles, r.state.particles)
    ensures c.ShatterAt? || c.ExplodeAt? || c.ImpulseAt? ==> r.state.index == h.state.index
  {
    var s := h.state;
    match c
    case StepSim(delta, influence) =>
      Hosted(h.config, Step(s, h.config, delta, influence, forces))
    case Reset(ps) =>
      Install(h.config, ps)
    case ShatterAt(m, origin, radius) =>
      var ps := MatterRules.Shatter(s.index, s.particles, m, origin, radius, kicks);
      Hosted(h.config, SolverState(ps, s.index))
    case ExplodeAt(m, origin, force) =>
      var ps := MatterRules.Explode(s.index, s.particles, m, origin, force, forces.sqrt);
      Hosted(h.config, SolverState(ps, s.index))
    case ImpulseAt(origin, radius, strength) =>
      var ps := ImpulseSphere(s.index, s.particles, origin, radius, strength, forces.sqrt);
      Hosted(h.config, SolverState(ps, s.index))
  }

  /** Every command leaves an index that names, for each id, a slot holding that id. */
  lemma ApplyKeepsSound(h: Hosted, c: Command, forces: Forces, kicks: nat -> Vec)
    requires !c.Init? && RootNonNegative(forces.sqrt)
    requires IndexSound(h.state.index, h.state.particles)
    ensures IndexSound(Apply(h, c, forces, kicks).state.index, Apply(h, c, forces, kicks).state.particles)
  {
    var r := Apply(h, c, forces, kicks);
    if c.StepSim? {
      StepKeepsSound(h.state, h.config, c.delta, c.influence, forces);
    } else if !c.Reset? {
      SameShapeKeepsSound(h.state.index, h.state.particles, r.state.particles);
    }
  }

  /** A shatter command never lowers the count of shattered particles of its material. */
  lemma ShatterCountGrows(h: Hosted, c: Command, forces: Forces, kicks: nat -> Vec)
    requires c.ShatterAt? && RootNonNegative(forces.sqrt)
    ensures CountShatteredOf(h.state.particles, c.material)
         <= CountShatteredOf(Apply(h, c, forces, kicks).state.particles, c.material)
  {
    CountShatteredOfGrows(h.state.particles, Apply(h, c, forces, kicks).state.particles, c.material);
  }

  /** What the worker posts after a command to a solver now in state `h`. */
  function Posted(h: Hosted, c: Command): (rs: seq<Response>)
    ensures |rs| == (if c.ShatterAt? then 2 else 1)
    ensures rs[0] == StateOf(h.state.particles)
    ensures c.ShatterAt? ==> rs[1].ShatterCount? && rs[1].material == c.material
    ensures c.ShatterAt? ==> rs[1].count <= |h.state.particles|
  {
    var ps := h.state.particles;
    [StateOf(ps)] + if c.ShatterAt? then [ShatterCount(c.material, CountShatteredOf(ps, c.material))] else []
  }

  /** handleWorkerMessage: each response becomes the notification of the same kind and payload. */
  function Relay(resp: Response): (n: Notification)
    ensures resp.StateOf? <==> n.Update?
    ensures resp.StateOf? ==> n.particles == resp.particles
    ensures resp.ShatterCount? ==> n.material == resp.material && n.count == resp.count
  {
    match resp
    case StateOf(ps) => Update(ps)
    case ShatterCount(m, n) => Shattered(m, n)
  }

  function RelayAll(rs: seq<Response>): (ns: seq<Notification>)
    ensures |ns| == |rs|
    ensures forall i :: 0 <= i < |rs| ==> ns[i] == Relay(rs[i])
  {
    if rs == [] then [] else [Relay(rs[0])] + RelayAll(rs[1..])
  }

  /**
   * What the inline engine emits after a command leaves its solver in
   * state `h`: the snapshot, and after shatter a count over every material.
   */
  function Echoed(h: Hosted, c: Command): (ns: seq<Notification>)
    ensures |ns| == (if c.ShatterAt? then 2 else 1)
    ensures ns[0] == Update(h.state.particles)
    ensures c.ShatterAt? ==> ns[1] == Shattered(c.material, CountShattered(h.state.particles))
  {
    var ps := h.state.particles;
    [Update(ps)] + if c.ShatterAt? then [Shattered(c.material, CountShattered(ps))] else []
  }

  /**
   * Both modes announce the same snapshot after every command. They differ
   * only in the shatter count: the worker counts material m, the inline
   * path every material, and the two agree exactly when no particle of
   * another material is shattered.
   */
  lemma ModesAgree(h: Hosted, c: Command)
    requires !c.Init?
    ensures !c.ShatterAt? ==> RelayAll(Posted(h, c)) == Echoed(h, c)
    ensures c.ShatterAt? ==>
      (RelayAll(Posted(h, c)) == Echoed(h, c) <==>
       forall i :: 0 <= i < |h.state.particles| && h.state.particles[i].shattered ==>
         h.state.particles[i].material == c.material)
  {
    var relayed := RelayAll(Posted(h, c));
    var echoed := Echoed(h, c);
    assert relayed[0] == echoed[0];
    if c.ShatterAt? {
      CountShatteredOfAtMost(h.state.particles, c.material);
      assert relayed == echoed <==> relayed[1] == echoed[1];
    } else {
      assert relayed == echoed;
    }
  }

  /** The engine's cached particles after it reads one worker reply: a state reply replaces them. */
  function Cached(cache: seq<Particle>, resp: Response): (r: seq<Particle>)
    ensures resp.StateOf? ==> r == resp.particles
    ensures resp.ShatterCount? ==> r == cache
  {
    if resp.StateOf? then resp.particles else cache
  }

  /** The cache after reading replies in order. */
  function CachedAll(cache: seq<Particle>, rs: seq<Response>): (r: seq<Particle>)
    ensures (forall k :: 0 <= k < |rs| ==> rs[k].ShatterCount?) ==> r == cache
    ensures rs != [] && rs[|rs| - 1].StateOf? ==> r == rs[|rs| - 1].particles
    decreases |rs|
  {
    if rs == [] then cache else CachedAll(Cached(cache, rs[0]), rs[1..])
  }

  /**
   * Location transparency: once the replies to a command are read, the
   * engine's cache holds exactly the worker's particles, whatever it held
   * before.
   */
  lemma CacheTracksWorker(cache: seq<Particle>, h: Hosted, c: Command)
    ensures CachedAll(cache, Posted(h, c)) == h.state.particles
  {
    var rs := Posted(h, c);
    assert CachedAll(cache, rs) == CachedAll(h.state.particles, rs[1..]);
    if c.ShatterAt? {
      assert rs[1..][1..] == [];
    }
  }
}
