/**
 * The execution engine: a ready-gated dispatcher that either posts
 * commands to a worker (the outbox) or runs an inline solver and emits
 * its notifications synchronously (the event log).
 */
module MatterEngine {
  import opened Types
  import opened MatterRules
  import opened MatterSolver
  import opened Protocol

  class SplatMatterEngine {
    /** Whether the platform offers workers; fixed for the engine's lifetime. */
    const workerSupport: bool
    /** A worker has been started and not terminated. */
    var worker: bool
    var solver: SplatMatterSolver?
    var config: Option<PhysicsConfig>
    var particles: seq<Particle>
    var ready: bool
    /** Every notification dispatched so far, in order. */
    var events: seq<Notification>
    /** Every command posted to the worker so far, in order. */
    var outbox: seq<Command>

    /**
     * Ready exactly while a worker or a solver is owned; the mode follows
     * the platform; an inline solver was built with the kept configuration
     * and has a sound index.
     */
    ghost predicate Valid()
      reads this, solver
    {
      && (ready <==> worker || solver != null)
      && (ready ==> config.Some?)
      && (worker ==> workerSupport)
      && (solver != null ==> !workerSupport && config == Some(solver.config) && solver.Valid())
    }

    ghost function Hosting(): Option<Hosted>
      reads this, solver
    {
      if solver == null then None else Some(Hosted(solver.config, solver.State()))
    }

    constructor(workerSupport: bool)
      ensures this.workerSupport == workerSupport && Valid()
      ensures !ready && !worker && solver == null && config == None
      ensures particles == [] && events == [] && outbox == []
    {
      this.workerSupport := workerSupport;
      worker := false;
      solver := null;
      config := None;
      particles := [];
      ready := false;
      events := [];
      outbox := [];
    }

    /** initialize: post `init` to a worker where there is one, else build an inline solver. */
    method Initialize(config: PhysicsConfig, ps: seq<Particle>)
      requires Valid()
      modifies this
      ensures Valid() && ready && this.config == Some(config) && particles == ps && events == old(events)
      ensures workerSupport ==> worker && solver == null && outbox == old(outbox) + [Init(config, ps)]
      ensures !workerSupport ==>
                && !worker && fresh(solver) && outbox == old(outbox)
                && Hosting() == Some(Install(config, ps))
    {
      this.config := Some(config);
      particles := ps;
      if workerSupport {
        outbox := outbox + [Init(config, ps)];
        worker := true;
        ready := true;
        return;
      }
      solver := new SplatMatterSolver(config, ps);
      ready := true;
    }

    method IsReady() returns (r: bool)
      requires Valid()
      ensures r <==> worker || solver != null
    {
      r := ready;
    }

    /** getParticles: the inline solver's particles, otherwise the cache. */
    method GetParticles() returns (ps: seq<Particle>)
      ensures solver != null ==> ps == solver.particles
      ensures solver == null ==> ps == particles
    {
      if solver != null {
        ps := solver.GetParticles();
        return;
      }
      ps := particles;
    }

    /** step: post it, or run it inline, cache a copy of the result and emit one update. */
    method Step(delta: real, influence: Influence, forces: Forces)
      requires Valid() && RootNonNegative(forces.sqrt)
      modifies this, solver
      ensures Valid()
      ensures ready == old(ready) && worker == old(worker) && solver == old(solver) && config == old(config)
      ensures !ready ==> events == old(events) && outbox == old(outbox) && particles == old(particles)
      ensures ready && worker ==>
                && outbox == old(outbox) + [StepSim(delta, influence)]
                && events == old(events) && particles == old(particles)
      ensures ready && !worker ==>
                && Hosting() == Some(Apply(old(Hosting()).value, StepSim(delta, influence), forces, NoKicks))
                && particles == solver.particles
                && events == old(events) + Echoed(Hosting().value, StepSim(delta, influence))
                && outbox == old(outbox)
    {
      if !ready {
        return;
      }
      if worker {
        outbox := outbox + [StepSim(delta, influence)];
        return;
      }
      ghost var before := Hosting().value;
      solver.Step(delta, influence, forces);
      assert Hosting().value == Apply(before, StepSim(delta, influence), forces, NoKicks);
      particles := solver.GetParticles();
      events := events + [Update(particles)];
    }

    /** resetParticles: cache the new particles; post them, or refile the inline solver and emit them. */
    method ResetParticles(ps: seq<Particle>)
      requires Valid()
      modifies this, solver
      ensures Valid()
      ensures ready == old(ready) && worker == old(worker) && solver == old(solver) && config == old(config)
      ensures !ready ==> events == old(events) && outbox == old(outbox) && particles == old(particles)
      ensures ready ==> particles == ps
      ensures ready && worker ==> outbox == old(outbox) + [Reset(ps)] && events == old(events)
      ensures ready && !worker ==>
                && Hosting() == Some(Install(solver.config, ps))
                && events == old(events) + Echoed(Hosting().value, Reset(ps))
                && outbox == old(outbox)
    {
      if !ready {
        return;
      }
      particles := ps;
      if worker {
        outbox := outbox + [Reset(ps)];
      } else {
        solver.SetParticles(ps);
        events := events + [Update(ps)];
      }
    }

    /**
     * shatter: post it, or run it inline and emit the snapshot followed by
     * the number of shattered particles of every material. The cache is
     * left as it was.
     */
    method Shatter(material: Material, origin: Vec, radius: real, kicks: nat -> Vec)
      requires Valid() && forall i :: KickInRange(kicks(i))
      modifies this, solver
      ensures Valid()
      ensures ready == old(ready) && worker == old(worker) && solver == old(solver) && config == old(config)
      ensures particles == old(particles)
      ensures !ready ==> events == old(events) && outbox == old(outbox)
      ensures ready && worker ==> outbox == old(outbox) + [ShatterAt(material, origin, radius)] && events == old(events)
      ensures ready && !worker ==>
                && solver.index == old(solver.index)
                && solver.particles == MatterRules.Shatter(solver.index, old(solver.particles), material, origin, radius, kicks)
                && events == old(events) + Echoed(Hosting().value, ShatterAt(material, origin, radius))
                && outbox == old(outbox)
    {
      if !ready || config.None? {
        return;
      }
      if worker {
        outbox := outbox + [ShatterAt(material, origin, radius)];
      } else if solver != null {
        solver.Shatter(material, origin, radius, kicks);
        SameShapeKeepsSound(solver.index, old(solver.particles), solver.particles);
        var ps := solver.GetParticles();
        events := events + [Update(ps), Shattered(material, CountShattered(ps))];
      }
    }

    /** explode: post it, or run it inline and emit the snapshot. The cache is left as it was. */
    method Explode(material: Material, origin: Vec, force: real, sqrt: real -> real)
      requires Valid() && RootNonNegative(sqrt)
      modifies this, solver
      ensures Valid()
      ensures ready == old(ready) && worker == old(worker) && solver == old(solver) && config == old(config)
      ensures particles == old(particles)
      ensures !ready ==> events == old(events) && outbox == old(outbox)
      ensures ready && worker ==> outbox == old(outbox) + [ExplodeAt(material, origin, force)] && events == old(events)
      ensures ready && !worker ==>
                && solver.index == old(solver.index)
                && solver.particles == MatterRules.Explode(solver.index, old(solver.particles), material, origin, force, sqrt)
                && events == old(events) + Echoed(Hosting().value, ExplodeAt(material, origin, force))
                && outbox == old(outbox)
    {
      if !ready {
        return;
      }
      if worker {
        outbox := outbox + [ExplodeAt(material, origin, force)];
      } else if solver != null {
        solver.Explode(material, origin, force, sqrt);
        SameShapeKeepsSound(solver.index, old(solver.particles), solver.particles);
        var ps := solver.GetParticles();
        events := events + [Update(ps)];
      }
    }

    /** applyImpulse: post it, or push inline at the given strength and emit the snapshot. */
    method ApplyImpulse(origin: Vec, radius: real, strength: real, sqrt: real -> real)
      requires Valid()
      modifies this, solver
      ensures Valid()
      ensures ready == old(ready) && worker == old(worker) && solver == old(solver) && config == old(config)
      ensures particles == old(particles)
      ensures !ready ==> events == old(events) && outbox == old(outbox)
      ensures ready && worker ==> outbox == old(outbox) + [ImpulseAt(origin, radius, strength)] && events == old(events)
      ensures ready && !worker ==>
                && solver.index == old(solver.index)
                && solver.particles == ImpulseSphere(solver.index, old(solver.particles), origin, radius, strength, sqrt)
                && events == old(events) + Echoed(Hosting().value, ImpulseAt(origin, radius, strength))
                && outbox == old(outbox)
    {
      if !ready {
        return;
      }
      if worker {
        outbox := outbox + [ImpulseAt(origin, radius, strength)];
      } else if solver != null {
        solver.ApplyImpulseSphere(origin, radius, strength, sqrt);
        SameShapeKeepsSound(solver.index, old(solver.particles), solver.particles);
        var ps := solver.GetParticles();
        events := events + [Update(ps)];
      }
    }

    /** terminate: drop the worker and the solver and leave the ready state. */
    method Terminate()
      requires Valid()
      modifies this
      ensures Valid() && !ready && !worker && solver == null
      ensures config == old(config) && particles == old(particles)
      ensures events == old(events) && outbox == old(outbox)
    {
      worker := false;
      solver := null;
      ready := false;
    }

    /** handleWorkerMessage: a state reply replaces the cache; each reply is re-emitted as its notification. */
    method HandleWorkerMessage(resp: Response)
      requires Valid()
      modifies this`particles, this`events
      ensures Valid()
      ensures particles == Cached(old(particles), resp)
      ensures events == old(events) + [Relay(resp)]
    {
      match resp {
        case StateOf(ps) =>
          particles := ps;
          events := events + [Update(particles)];
        case ShatterCount(m, count) =>
          events := events + [Shattered(m, count)];
      }
    }
  }
}
