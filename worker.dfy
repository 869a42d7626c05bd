/**
 * The simulation worker's message handler: a module-level, optional
 * solver and a switch over the incoming message type. Posted messages are
 * returned to the caller in the order the worker posts them.
 */
module SplatWorker {
  import opened Types
  import opened MatterRules
  import opened MatterSolver
  import opened Protocol

  /** The hosted solver after a message, and what was posted meanwhile. */
  datatype Outcome = Outcome(hosted: Option<Hosted>, responses: seq<Response>)

  /**
   * onmessage: `init` (re)installs a solver and posts its state; every
   * other known command acts only on an installed solver and then posts
   * its state, plus the per-material count after `shatter`; any other
   * message type is ignored.
   */
  function Handle(h: Option<Hosted>, msg: Incoming, forces: Forces, kicks: nat -> Vec): (r: Outcome)
    requires RootNonNegative(forces.sqrt)
    ensures msg.Unrecognised? ==> r == Outcome(h, [])
    ensures msg.Known? && msg.command.Init? ==>
              && r.hosted == Some(Install(msg.command.config, msg.command.particles))
              && r.responses == [StateOf(msg.command.particles)]
    ensures msg.Known? && !msg.command.Init? && h.None? ==> r == Outcome(None, [])
    ensures msg.Known? && !msg.command.Init? && h.Some? ==>
              && r.hosted == Some(Apply(h.value, msg.command, forces, kicks))
              && r.responses == Posted(r.hosted.value, msg.command)
  {
    match msg
    case Unrecognised(_) => Outcome(h, [])
    case Known(c) =>
      if c.Init? then
        var installed := Install(c.config, c.particles);
        Outcome(Some(installed), [StateOf(installed.state.particles)])
      else if h.None? then
        Outcome(None, [])
      else
        var next := Apply(h.value, c, forces, kicks);
        Outcome(Some(next), Posted(next, c))
  }

  /**
   * Whatever the worker posts describes the solver it hosts afterwards: a
   * non-empty reply means there is a solver, every state reply carries its
   * particles, and a count reply is that of its material in that solver.
   */
  lemma RepliesDescribeHost(h: Option<Hosted>, msg: Incoming, forces: Forces, kicks: nat -> Vec)
    requires RootNonNegative(forces.sqrt)
    ensures var r := Handle(h, msg, forces, kicks);
      && (r.responses != [] ==> r.hosted.Some?)
      && (r.responses != [] ==> r.responses[0] == StateOf(r.hosted.value.state.particles))
      && (forall k :: 0 <= k < |r.responses| && r.responses[k].ShatterCount? ==>
            r.responses[k].count == CountShatteredOf(r.hosted.value.state.particles, r.responses[k].material))
  {
  }

  /** A hosted solver's index stays sound across every message. */
  lemma HandleKeepsSound(h: Option<Hosted>, msg: Incoming, forces: Forces, kicks: nat -> Vec)
    requires RootNonNegative(forces.sqrt)
    requires h.Some? ==> IndexSound(h.value.state.index, h.value.state.particles)
    ensures var r := Handle(h, msg, forces, kicks);
      r.hosted.Some? ==> IndexSound(r.hosted.value.state.index, r.hosted.value.state.particles)
  {
    if msg.Known? && !msg.command.Init? && h.Some? {
      ApplyKeepsSound(h.value, msg.command, forces, kicks);
    }
  }

  /** Messages sent before `init` are lost: nothing is posted and no solver appears. */
  lemma {:induction false} BeforeInitSilent(msgs: seq<Incoming>, forces: Forces, kicks: nat -> Vec)
    requires RootNonNegative(forces.sqrt)
    requires forall k :: 0 <= k < |msgs| ==> !(msgs[k].Known? && msgs[k].command.Init?)
    ensures Run(None, msgs, forces, kicks) == Outcome(None, [])
  {
    if msgs != [] {
      BeforeInitSilent(msgs[1..], forces, kicks);
    }
  }

  /**
   * A sequence of messages handled in order, with every posted message
   * collected: an installed solver is never uninstalled, and anything
   * posted means a solver is installed at the end.
   */
  function Run(h: Option<Hosted>, msgs: seq<Incoming>, forces: Forces, kicks: nat -> Vec): (r: Outcome)
    requires RootNonNegative(forces.sqrt)
    ensures msgs == [] ==> r == Outcome(h, [])
    ensures h.Some? ==> r.hosted.Some?
    ensures r.responses != [] ==> r.hosted.Some?
    decreases |msgs|
  {
    if msgs == [] then Outcome(h, [])
    else
      var first := Handle(h, msgs[0], forces, kicks);
      var rest := Run(first.hosted, msgs[1..], forces, kicks);
      Outcome(rest.hosted, first.responses + rest.responses)
  }

  /** The worker's global scope: the solver variable the handler reassigns. */
  class WorkerScope {
    var solver: SplatMatterSolver?

    constructor()
      ensures solver == null
    {
      solver := null;
    }

    ghost function Hosting(): Option<Hosted>
      reads this, solver
    {
      if solver == null then None else Some(Hosted(solver.config, solver.State()))
    }

    /** The `onmessage` handler, with `postState` inlined; returns what it posts. */
    method OnMessage(msg: Incoming, forces: Forces, kicks: nat -> Vec) returns (posted: seq<Response>)
      requires RootNonNegative(forces.sqrt) && forall i :: KickInRange(kicks(i))
      modifies this, solver
      ensures Hosting() == Handle(old(Hosting()), msg, forces, kicks).hosted
      ensures posted == Handle(old(Hosting()), msg, forces, kicks).responses
      ensures msg.Known? && msg.command.Init? ==> fresh(solver)
      ensures !(msg.Known? && msg.command.Init?) ==> solver == old(solver)
    {
      posted := [];
      if msg.Unrecognised? {
        return;
      }
      var c := msg.command;
      if c.Init? {
        solver := new SplatMatterSolver(c.config, c.particles);
        posted := PostState();
        return;
      }
      if solver == null {
        posted := PostState();
        return;
      }
      match c {
        case Init(_, _) =>
        case StepSim(delta, influence) =>
          solver.Step(delta, influence, forces);
        case Reset(ps) =>
          solver.SetParticles(ps);
        case ShatterAt(m, origin, radius) =>
          solver.Shatter(m, origin, radius, kicks);
        case ExplodeAt(m, origin, force) =>
          solver.Explode(m, origin, force, forces.sqrt);
        case ImpulseAt(origin, radius, strength) =>
          solver.ApplyImpulseSphere(origin, radius, strength, forces.sqrt);
      }
      posted := PostState();
      if c.ShatterAt? {
        var ps := solver.GetParticles();
        posted := posted + [ShatterCount(c.material, CountShatteredOf(ps, c.material))];
      }
    }

    /** postState: the solver's particles, or nothing without a solver. */
    method PostState() returns (posted: seq<Response>)
      ensures solver == null ==> posted == []
      ensures solver != null ==> posted == [StateOf(solver.particles)]
    {
      if solver == null {
        return [];
      }
      var ps := solver.GetParticles();
      posted := [StateOf(ps)];
    }
  }
}
