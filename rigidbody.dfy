/**
  The force list of `Rigidbody2D`. Deadlines are clock readings; the force
  vectors are carried along but the velocity, acceleration and position
  integration of `simulate` is floating point and not modelled.
 */
module Rigidbody {

  /** `ForceMode2D`. */
  datatype ForceMode2D = Continuous | Impulse | Timed(deadline: nat)

  /** `Force2D`. */
  datatype Force2D = Force2D(force: (real, real), mode: ForceMode2D)

  /** The retention test of `simulate` at time `now`. */
  predicate StillApplies(f: Force2D, now: nat)
  {
    match f.mode
    case Continuous => true
    case Impulse => false
    case Timed(deadline) => now < deadline
  }

  /** `forces.retain(..)` at time `now`. */
  function Retain(forces: seq<Force2D>, now: nat): (r: seq<Force2D>)
    ensures |r| <= |forces|
    ensures forall f :: multiset(r)[f] == if StillApplies(f, now) then multiset(forces)[f] else 0
    ensures forall f :: f in r <==> f in forces && StillApplies(f, now)
    decreases |forces|
  {
    if forces == [] then []
    else
      assert forces == [forces[0]] + forces[1..];
      if StillApplies(forces[0], now) then [forces[0]] + Retain(forces[1..], now)
      else Retain(forces[1..], now)
  }

  /**
    Per mode: continuous forces stay, impulses go, a timed force stays iff
    its deadline is still ahead.
   */
  lemma RetainByMode(forces: seq<Force2D>, now: nat, f: Force2D)
    requires f in forces
    ensures f.mode.Continuous? ==> f in Retain(forces, now)
    ensures f.mode.Impulse? ==> f !in Retain(forces, now)
    ensures f.mode.Timed? ==> (f in Retain(forces, now) <==> now < f.mode.deadline)
  {
  }

  /** Retention keeps the survivors in their relative order. */
  lemma {:induction false} RetainAppend(a: seq<Force2D>, b: seq<Force2D>, now: nat)
    ensures Retain(a + b, now) == Retain(a, now) + Retain(b, now)
    decreases |a|
  {
    if a == [] {
      assert a + b == b;
    } else {
      assert (a + b)[0] == a[0];
      assert (a + b)[1..] == a[1..] + b;
      RetainAppend(a[1..], b, now);
    }
  }

  /** Retaining twice at the same time keeps what retaining once kept. */
  lemma {:induction false} RetainIdempotent(forces: seq<Force2D>, now: nat)
    ensures Retain(Retain(forces, now), now) == Retain(forces, now)
    decreases |forces|
  {
    if forces != [] {
      RetainIdempotent(forces[1..], now);
      if StillApplies(forces[0], now) {
        var rest := Retain(forces[1..], now);
        assert ([forces[0]] + rest)[0] == forces[0];
        assert ([forces[0]] + rest)[1..] == rest;
      }
    }
  }

  /** `Rigidbody2D` without its floating-point motion state. */
  class Rigidbody2D {
    var mass: real
    var friction: real
    var forces: seq<Force2D>
    var constrainX: bool
    var constrainY: bool
    var constrainRotZ: bool

    /** `Rigidbody2D::new`: no forces, mass 1, no friction, nothing constrained. */
    constructor ()
      ensures forces == [] && mass == 1.0 && friction == 0.0
      ensures !constrainX && !constrainY && !constrainRotZ
    {
      mass := 1.0;
      friction := 0.0;
      forces := [];
      constrainX, constrainY, constrainRotZ := false, false, false;
    }

    /** `add_force`: exactly one force appended at the end. */
    method AddForce(force: (real, real), mode: ForceMode2D)
      modifies this
      ensures forces == old(forces) + [Force2D(force, mode)]
      ensures mass == old(mass) && friction == old(friction)
      ensures constrainX == old(constrainX) && constrainY == old(constrainY) && constrainRotZ == old(constrainRotZ)
    {
      forces := forces + [Force2D(force, mode)];
    }

    /** The expired-force removal step of `simulate` at time `now`. */
    method RemoveExpiredForces(now: nat)
      modifies this
      ensures forces == Retain(old(forces), now)
      ensures mass == old(mass) && friction == old(friction)
      ensures constrainX == old(constrainX) && constrainY == old(constrainY) && constrainRotZ == old(constrainRotZ)
    {
      forces := Retain(forces, now);
    }
  }
}
