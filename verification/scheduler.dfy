/** The fixed-step scheduler of the animation callback: each frame adds the
    wall-clock time since the previous frame to an accumulator and drains it
    in whole steps of `dt`, stepping the model once per drained step while
    the simulation runs, and draining it all the same while it is stopped. */
module Scheduler {
  import opened RK4
  import opened Trajectory
  import opened ParticleModel
  import opened Control

  /** The callback's state: the previous frame's timestamp, the undrained
      time, and the controller with its model. */
  datatype Session = Session(currentTime: real, accumulator: real, controller: Controller)

  /** What ticking the controller needs: a full trail, and a nonzero mass
      only while it runs. A stopped controller never steps the model, so
      never divides by the mass. */
  predicate Tickable(c: Controller) {
    |c.model.trajectory| == Slots && (c.isSimulationRunning ==> Steppable(c.model))
  }

  /** What a frame needs: a tickable controller and a positive step. */
  predicate Ready(c: Controller) {
    Tickable(c) && c.model.integrator.dt > 0.0
  }

  /** The number of whole steps of size `dt` that an accumulator holding
      `acc` drains: zero below one step, otherwise the largest `k` with
      `k·dt <= acc`. */
  function Pending(acc: real, dt: real): (k: nat)
    requires dt > 0.0
    ensures k == 0 <==> acc < dt
    ensures k > 0 ==> Elapsed(dt, k) <= acc
    ensures acc - Elapsed(dt, k) < dt
  {
    if acc < dt then 0
    else
      var q := acc / dt;
      QuotientBounds(acc, dt, q);
      var k := q.Floor;
      LowerBound(acc, dt, q, k as real);
      UpperBound(acc, dt, q, (k + 1) as real);
      ElapsedIsProduct(dt, k);
      ElapsedIsProduct(dt, k + 1);
      assert Elapsed(dt, k + 1) == Elapsed(dt, k) + dt;
      k
  }

  /** For `acc >= dt > 0` the quotient is at least one and times `dt`
      gives `acc` back. */
  lemma QuotientBounds(acc: real, dt: real, q: real)
    requires dt > 0.0 && acc >= dt
    requires q == acc / dt
    ensures q >= 1.0
    ensures q * dt == acc
  {
  }

  /** Scaling `k <= q` by a positive `dt`. */
  lemma LowerBound(acc: real, dt: real, q: real, k: real)
    requires dt > 0.0
    requires q * dt == acc
    requires k <= q
    ensures k * dt <= acc
  {
    ScaleMonotone(dt, k, q);
  }

  /** Scaling `q < k1` by a positive `dt`. */
  lemma UpperBound(acc: real, dt: real, q: real, k1: real)
    requires dt > 0.0
    requires q * dt == acc
    requires q < k1
    ensures acc < k1 * dt
  {
    ScaleStrictlyMonotone(dt, q, k1);
  }

  lemma ScaleMonotone(dt: real, a: real, b: real)
    requires dt > 0.0
    requires a <= b
    ensures a * dt <= b * dt
  {
  }

  lemma ScaleStrictlyMonotone(dt: real, a: real, b: real)
    requires dt > 0.0
    requires a < b
    ensures a * dt < b * dt
  {
  }

  /** `Pending` is the only count meeting its characterisation. */
  lemma PendingUnique(acc: real, dt: real, j: nat)
    requires dt > 0.0
    requires j == 0 ==> acc < dt
    requires j > 0 ==> Elapsed(dt, j) <= acc && acc - Elapsed(dt, j) < dt
    ensures j == Pending(acc, dt)
  {
    var k := Pending(acc, dt);
    assert Elapsed(dt, 0) == 0.0;
    ElapsedGap(dt, j, k);
    ElapsedGap(dt, k, j);
  }

  /** Two counts that differ leave at least one whole step between their
      elapsed times. */
  lemma ElapsedGap(dt: real, a: nat, b: nat)
    requires dt > 0.0
    ensures a < b ==> Elapsed(dt, b) >= Elapsed(dt, a) + dt
  {
    if a < b {
      ElapsedAdd(dt, a, b - a);
      ElapsedAtLeastStep(dt, b - a);
    }
  }

  /** Draining `j` whole steps first and the rest afterwards drains the
      same number of steps as draining everything at once. */
  lemma PendingShift(acc: real, dt: real, j: nat)
    requires dt > 0.0
    requires j > 0 ==> Elapsed(dt, j) <= acc
    ensures Pending(acc - Elapsed(dt, j), dt) + j == Pending(acc, dt)
  {
    var m := Pending(acc - Elapsed(dt, j), dt);
    ElapsedAdd(dt, m, j);
    assert Elapsed(dt, 0) == 0.0;
    PendingUnique(acc, dt, m + j);
  }

  /** The controller after `k` ticks: the model moves `k` times while the
      simulation runs and stays put while it is stopped. */
  function Advance(c: Controller, k: nat): (r: Controller)
    requires Tickable(c)
    ensures r.isSimulationRunning == c.isSimulationRunning
    ensures c.isSimulationRunning ==> r.model == Moves(c.model, k)
    ensures !c.isSimulationRunning ==> r.model == c.model
    ensures Tickable(r)
    ensures r.model.params == c.model.params && r.model.integrator == c.model.integrator
  {
    Controller(if c.isSimulationRunning then Moves(c.model, k) else c.model, c.isSimulationRunning)
  }

  /** The whole steps one frame ending at `newTime` drains. */
  function Steps(s: Session, newTime: real): nat
    requires Ready(s.controller)
  {
    Pending(s.accumulator + (newTime - s.currentTime), s.controller.model.integrator.dt)
  }

  /** One animation frame ending at `newTime`, in closed form: the frame
      time joins the accumulator, `Steps` whole steps leave it, and the
      controller ticks that many times. */
  function Frame(s: Session, newTime: real): (r: Session)
    requires Ready(s.controller)
    ensures r.currentTime == newTime
    ensures r.accumulator < s.controller.model.integrator.dt
    ensures s.accumulator + (newTime - s.currentTime) >= 0.0 ==> r.accumulator >= 0.0
    ensures r.accumulator + Elapsed(s.controller.model.integrator.dt, Steps(s, newTime))
            == s.accumulator + (newTime - s.currentTime)
    ensures r.controller == Advance(s.controller, Steps(s, newTime))
    ensures Ready(r.controller)
  {
    var dt := s.controller.model.integrator.dt;
    var acc := s.accumulator + (newTime - s.currentTime);
    var k := Pending(acc, dt);
    assert Elapsed(dt, 0) == 0.0;
    Session(newTime, acc - Elapsed(dt, k), Advance(s.controller, k))
  }

  /** The callback's drain loop: while a whole step is pending, tick the
      controller if it runs and take the step off the accumulator. */
  method Drain(c: Controller, accumulator: real) returns (r: Controller, acc: real, steps: nat)
    requires Ready(c)
    ensures acc < c.model.integrator.dt
    ensures steps == Pending(accumulator, c.model.integrator.dt)
    ensures acc == accumulator - Elapsed(c.model.integrator.dt, steps)
    ensures acc == accumulator - steps as real * c.model.integrator.dt
    ensures r == Advance(c, steps)
  {
    var dt := c.model.integrator.dt;
    r := c;
    acc := accumulator;
    steps := 0;
    assert Elapsed(dt, 0) == 0.0;
    while acc >= dt
      invariant acc == accumulator - Elapsed(dt, steps)
      invariant steps + Pending(acc, dt) == Pending(accumulator, dt)
      invariant r == Advance(c, steps)
      decreases Pending(acc, dt)
    {
      if r.isSimulationRunning {
        MovesLast(c.model, steps + 1);
        r := Update(r);
      }
      PendingShift(acc, dt, 1);
      assert Elapsed(dt, 1) == dt;
      assert Elapsed(dt, steps + 1) == Elapsed(dt, steps) + dt;
      acc := acc - dt;
      steps := steps + 1;
    }
    DrainedAsProduct(accumulator, acc, c.model.integrator.dt, steps);
  }

  /** The drained time `Elapsed(dt, steps)` is `steps·dt`. */
  lemma DrainedAsProduct(accumulator: real, acc: real, dt: real, steps: nat)
    requires acc == accumulator - Elapsed(dt, steps)
    ensures acc == accumulator - steps as real * dt
  {
    ElapsedIsProduct(dt, steps);
  }

  /** The animation callback: read the clock (passed in as `newTime`),
      add the frame time to the accumulator and drain it. */
  method Animate(s: Session, newTime: real) returns (r: Session)
    requires Ready(s.controller)
    ensures r == Frame(s, newTime)
  {
    var frameTime := newTime - s.currentTime;
    var accumulator := s.accumulator + frameTime;
    var c, acc, steps := Drain(s.controller, accumulator);
    r := Session(newTime, acc, c);
  }

  /** The state before the first frame: the clock read once, an empty
      accumulator, and the controller `InitMVC` builds. */
  function InitialSession(t0: real): (s: Session)
    ensures s.currentTime == t0 && s.accumulator == 0.0
    ensures Ready(s.controller)
    ensures !s.controller.isSimulationRunning
    ensures s.controller.model.pos == Home
  {
    Session(t0, 0.0, InitMVC())
  }

  /** Frames at `t1 <= t2` end in the same state as one frame at `t2`:
      the outcome does not depend on how the elapsed time is cut into
      frames. */
  lemma FrameTwice(s: Session, t1: real, t2: real)
    requires Ready(s.controller)
    requires t1 <= t2
    ensures Frame(Frame(s, t1), t2) == Frame(s, t2)
  {
    var dt := s.controller.model.integrator.dt;
    var s1 := Frame(s, t1);
    var k1 := Steps(s, t1);
    var k2 := Steps(s1, t2);
    var acc := s.accumulator + (t2 - s.currentTime);
    assert s1.accumulator + (t2 - s1.currentTime) == acc - Elapsed(dt, k1);
    PendingShift(acc, dt, k1);
    ElapsedAdd(dt, k1, k2);
    if s.controller.isSimulationRunning {
      MovesAdd(s.controller.model, k1, k2);
    }
  }

  /** The final state after a sequence of frames. */
  function Frames(s: Session, times: seq<real>): (r: Session)
    requires Ready(s.controller)
    ensures Ready(r.controller)
    ensures r.controller.isSimulationRunning == s.controller.isSimulationRunning
    ensures |times| > 0 ==> r.currentTime == times[|times| - 1]
    decreases |times|
  {
    if |times| == 0 then s
    else Frame(Frames(s, times[..|times| - 1]), times[|times| - 1])
  }

  predicate NonDecreasing(times: seq<real>) {
    forall i, j :: 0 <= i < j < |times| ==> times[i] <= times[j]
  }

  /** Any run of frames at non-decreasing times ends where one frame at
      the last time ends. */
  lemma {:induction false} FramesCollapse(s: Session, times: seq<real>)
    requires Ready(s.controller)
    requires |times| > 0 && NonDecreasing(times)
    ensures Frames(s, times) == Frame(s, times[|times| - 1])
    decreases |times|
  {
    if |times| > 1 {
      var init := times[..|times| - 1];
      FramesCollapse(s, init);
      FrameTwice(s, init[|init| - 1], times[|times| - 1]);
    }
  }

  /** A frame while stopped drains the accumulator without touching the
      controller: no step is taken, whatever the mass, zero included. */
  lemma StoppedFrameKeepsController(s: Session, newTime: real)
    requires Ready(s.controller)
    requires !s.controller.isSimulationRunning
    ensures Frame(s, newTime).controller == s.controller
    ensures Frame(s, newTime).accumulator < s.controller.model.integrator.dt
  {
  }

  /** With the accumulator below one step, as every frame leaves it, a
      frame drains no more whole steps than its own duration plus one step
      covers: time spent stopped is not caught up after resuming. */
  lemma NoCatchUp(s: Session, newTime: real)
    requires Ready(s.controller)
    requires s.accumulator < s.controller.model.integrator.dt
    requires s.currentTime <= newTime
    ensures Elapsed(s.controller.model.integrator.dt, Steps(s, newTime))
            < (newTime - s.currentTime) + s.controller.model.integrator.dt
  {
  }
}
