/** The controller: the running flag, the one-step update the scheduler
    calls, the start/stop toggle and the reset action; and the wiring of
    model, integrator and controller done once at page load. */
module Control {
  import opened Vectors
  import opened RK4
  import opened ParticleModel

  datatype Controller = Controller(model: Model, isSimulationRunning: bool)

  /** The fixed step the source wires into the integrator. */
  const Dt: real := 0.01

  /** A new controller over `model`; the simulation starts stopped. */
  function NewController(model: Model): (c: Controller)
    ensures c.model == model
    ensures !c.isSimulationRunning
  {
    Controller(model, false)
  }

  /** Start/stop: flips the running flag and leaves the model alone. */
  function ToggleSimulationRunning(c: Controller): (r: Controller)
    ensures r.isSimulationRunning == !c.isSimulationRunning
    ensures r.model == c.model
  {
    Controller(c.model, !c.isSimulationRunning)
  }

  /** Toggling twice restores the flag. */
  lemma ToggleTwice(c: Controller)
    ensures ToggleSimulationRunning(ToggleSimulationRunning(c)) == c
  {
  }

  /** One scheduler tick while running: one model step. */
  function Update(c: Controller): (r: Controller)
    requires Steppable(c.model)
    ensures r.model == Move(c.model)
    ensures r.isSimulationRunning == c.isSimulationRunning
    ensures Steppable(r.model)
    ensures r.model.params == c.model.params && r.model.integrator == c.model.integrator
  {
    Controller(Move(c.model), c.isSimulationRunning)
  }

  /** Restart the model, then take exactly one step so the view shows the
      reset state at once. Because the restarted particle is at rest in no
      field, that step leaves it where it is: the result is the restarted
      model itself (at `Home`, at rest, no fields, every trail slot at
      `Home`). The running flag is kept. */
  function ResetSimulation(c: Controller): (r: Controller)
    requires c.model.params.m != 0.0
    ensures r == Controller(Restart(c.model), c.isSimulationRunning)
  {
    UpdateAfterRestart(c.model, c.isSimulationRunning);
    Update(Controller(Restart(c.model), c.isSimulationRunning))
  }

  /** The step taken by a reset is invisible. */
  lemma RestartThenMove(model: Model)
    requires model.params.m != 0.0
    ensures Move(Restart(model)) == Restart(model)
  {
    var r := Restart(model);
    ZeroFieldStep(r.integrator, r.params, r.pos, r.vel);
    ScaleZero(r.integrator.dt);
    AddZero(r.pos);
    var m := Move(r);
    assert m.pos == Home && m.vel == Zero;
    assert m.trajectory == r.trajectory;
  }

  /** The reset's step, at the controller level. */
  lemma UpdateAfterRestart(model: Model, running: bool)
    requires model.params.m != 0.0
    ensures Update(Controller(Restart(model), running)) == Controller(Restart(model), running)
  {
    RestartThenMove(model);
  }

  /** Page-load wiring: a fresh model stepped by an integrator with the fixed
      step, a stopped controller, and one reset. */
  function InitMVC(): (c: Controller)
    ensures c.model == NewModel(RK4Integrator(Dt))
    ensures !c.isSimulationRunning
    ensures c.model.integrator.dt == Dt
  {
    var c := ResetSimulation(NewController(NewModel(RK4Integrator(Dt))));
    ResetOfNewModel(RK4Integrator(Dt));
    c
  }

  /** Resetting a new, stopped controller leaves it as it was. */
  lemma ResetOfNewModel(integrator: RK4Integrator)
    ensures ResetSimulation(NewController(NewModel(integrator))) == NewController(NewModel(integrator))
  {
    RestartOfNewModel(integrator);
  }
}
