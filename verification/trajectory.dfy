/** The trail of recent positions kept by the particle model. The source sizes
    it `TRAJECTORY_BUFFER + 1` slots (2000 + 1), drops the oldest slot and
    appends the newest position on every step, and refills every slot with
    one position on construction and on restart. */
module Trajectory {
  import opened Vectors

  const Buffer: nat := 2000
  const Slots: nat := Buffer + 1

  /** Every slot holds `p`. */
  function Fill(p: Vec3): (t: seq<Vec3>)
    ensures |t| == Slots
    ensures forall i :: 0 <= i < |t| ==> t[i] == p
  {
    seq(Slots, _ => p)
  }

  /** One step of the trail: slot `i` takes the old slot `i + 1`, and the last
      slot receives the new position. */
  function Shift(t: seq<Vec3>, p: Vec3): (r: seq<Vec3>)
    requires |t| == Slots
    ensures |r| == Slots
    ensures forall i :: 0 <= i < Buffer ==> r[i] == t[i + 1]
    ensures r[Buffer] == p
  {
    t[1..] + [p]
  }

  /** The construction loop: pushes `p` once per slot onto an empty list. */
  method InitTrajectory(p: Vec3) returns (t: seq<Vec3>)
    ensures t == Fill(p)
  {
    t := [];
    var i := 0;
    while i < Slots
      invariant 0 <= i <= Slots
      invariant |t| == i
      invariant forall j :: 0 <= j < i ==> t[j] == p
    {
      t := t + [p];
      i := i + 1;
    }
  }

  /** The restart loop: overwrites every slot of an existing trail with `p`. */
  method Refill(t0: seq<Vec3>, p: Vec3) returns (t: seq<Vec3>)
    requires |t0| == Slots
    ensures t == Fill(p)
  {
    t := t0;
    var i := 0;
    while i < Slots
      invariant 0 <= i <= Slots
      invariant |t| == Slots
      invariant forall j :: 0 <= j < i ==> t[j] == p
    {
      t := t[i := p];
      i := i + 1;
    }
  }

  /** The step loop: moves each slot one place towards the front, in
      increasing index order, then stores the new position in the last slot. */
  method ShiftInPlace(t0: seq<Vec3>, p: Vec3) returns (t: seq<Vec3>)
    requires |t0| == Slots
    ensures t == Shift(t0, p)
  {
    t := t0;
    var i := 0;
    while i < Buffer
      invariant 0 <= i <= Buffer
      invariant |t| == Slots
      invariant forall j :: 0 <= j < i ==> t[j] == t0[j + 1]
      invariant forall j :: i <= j < Slots ==> t[j] == t0[j]
    {
      t := t[i := t[i + 1]];
      i := i + 1;
    }
    t := t[Buffer := p];
  }

  /** The trail after appending the positions `ps` one at a time. */
  function ShiftAll(t: seq<Vec3>, ps: seq<Vec3>): (r: seq<Vec3>)
    requires |t| == Slots
    ensures |r| == Slots
    decreases |ps|
  {
    if |ps| == 0 then t else ShiftAll(Shift(t, ps[0]), ps[1..])
  }

  /** Appending one more position after a run is one more `Shift`. */
  lemma {:induction false} ShiftAllSnoc(t: seq<Vec3>, ps: seq<Vec3>, p: Vec3)
    requires |t| == Slots
    ensures ShiftAll(t, ps + [p]) == Shift(ShiftAll(t, ps), p)
    decreases |ps|
  {
    if |ps| == 0 {
      assert ps + [p] == [p];
      assert ShiftAll(Shift(t, p), []) == Shift(t, p);
    } else {
      assert (ps + [p])[0] == ps[0];
      assert (ps + [p])[1..] == ps[1..] + [p];
      ShiftAllSnoc(Shift(t, ps[0]), ps[1..], p);
    }
  }

  /** First-in first-out order: after at most `Slots` appends the trail is the
      unevicted tail of the old trail followed by the new positions, oldest
      first. */
  lemma {:induction false} ShiftAllFifo(t: seq<Vec3>, ps: seq<Vec3>)
    requires |t| == Slots
    requires |ps| <= Slots
    ensures ShiftAll(t, ps) == t[|ps|..] + ps
    decreases |ps|
  {
    if |ps| > 0 {
      var t' := Shift(t, ps[0]);
      assert t' == t[1..] + [ps[0]];
      ShiftAllFifo(t', ps[1..]);
      assert t'[|ps| - 1..] == t[|ps|..] + [ps[0]];
      assert [ps[0]] + ps[1..] == ps;
    }
  }
}
