/**
  source/BazookoidsCore/Simulation/Vehicle.cs: a hovercraft, its contact
  geometry, its rigid-body state, the per-frame force and torque
  accumulators and the integration step.
 */
module Vehicles {
  import opened Geometry
  import opened Spheres
  import opened Levitators
  import opened RigidBody

  const BodyBoundingVertexReactionForceMultiplier: real := 75.0
  const BodyBoundingVertexFrictionForceMultiplier: real := 5.0

  const BodyBoundingSphereReactionForceMultiplier: real := 30.0
  const BodyBoundingSphereFrictionForceMultiplier: real := 0.15

  const PowerForceMagnitude: real := 10.0
  const TurningForceMagnitude: real := 2.0

  /**
    Everything the force computation reads from one vehicle: its mass,
    inertia, contact geometry, levitators and current state. The Force and
    Torque accumulators are not part of it.
   */
  datatype Body = Body(
    mass: real,
    inverseBodyInertiaTensor: Mat3,
    vertices: seq<Vec3>,
    spheres: seq<Sphere>,
    pads: seq<Pad>,
    state: BodyState)

  /** The values of a sequence of levitators, in order. */
  function PadsOf(levitators: seq<Levitator>): (r: seq<Pad>)
    reads levitators
    ensures |r| == |levitators|
    ensures forall k :: 0 <= k < |levitators| ==> r[k] == levitators[k].Value()
  {
    seq(|levitators|, k requires 0 <= k < |levitators| reads levitators => levitators[k].Value())
  }

  /**
    A vehicle. Its mass, inertia, contact geometry, levitators and state
    object are properties that the game's initialisation sets once and
    nothing reassigns afterwards, so they are constants here; what changes
    is the contents of the state object and of the levitators, and the two
    accumulators.
   */
  class Vehicle {
    const mass: real
    const inverseBodyInertiaTensor: Mat3
    /** Body-local corners tested against the arena planes. */
    const bodyBoundingVertices: seq<Vec3>
    /** Body-local spheres tested against the other vehicles. */
    const bodyBoundingSpheres: seq<Sphere>
    const levitators: seq<Levitator>
    const state: RigidBodyState
    var force: Vec3
    var torque: Vec3
    const highlightColour: Vec3

    /**
      `new Vehicle()` on its own: empty vertex, sphere and levitator arrays,
      a fresh state at rest at the origin, and every other property at its
      C# default, zero.
     */
    constructor Empty()
      ensures bodyBoundingVertices == [] && bodyBoundingSpheres == [] && levitators == []
      ensures fresh(state) && state.Value() == BodyState(Zero, Zero, ZeroMatrix, Zero, Zero)
      ensures mass == 0.0 && inverseBodyInertiaTensor == ZeroMatrix && highlightColour == Zero
      ensures force == Zero && torque == Zero
    {
      mass := 0.0;
      inverseBodyInertiaTensor := ZeroMatrix;
      bodyBoundingVertices := [];
      bodyBoundingSpheres := [];
      levitators := [];
      highlightColour := Zero;
      state := new RigidBodyState();
      force := Zero;
      torque := Zero;
    }

    /**
      `new Vehicle() { Mass = ..., ... }`: the constructor creates a fresh
      state at rest at the origin and the object initialiser sets the other
      properties; Force and Torque keep their zero defaults.
     */
    constructor (mass: real, inverseBodyInertiaTensor: Mat3, bodyBoundingVertices: seq<Vec3>,
                 bodyBoundingSpheres: seq<Sphere>, levitators: seq<Levitator>, highlightColour: Vec3)
      ensures this.mass == mass && this.inverseBodyInertiaTensor == inverseBodyInertiaTensor
      ensures this.bodyBoundingVertices == bodyBoundingVertices && this.bodyBoundingSpheres == bodyBoundingSpheres
      ensures this.levitators == levitators && this.highlightColour == highlightColour
      ensures fresh(state) && state.Value() == BodyState(Zero, Zero, ZeroMatrix, Zero, Zero)
      ensures force == Zero && torque == Zero
    {
      this.mass := mass;
      this.inverseBodyInertiaTensor := inverseBodyInertiaTensor;
      this.bodyBoundingVertices := bodyBoundingVertices;
      this.bodyBoundingSpheres := bodyBoundingSpheres;
      this.levitators := levitators;
      this.highlightColour := highlightColour;
      state := new RigidBodyState();
      force := Zero;
      torque := Zero;
    }

    /** What the force computation reads from this vehicle. */
    function Value(): Body
      reads state, levitators
    {
      Body(mass, inverseBodyInertiaTensor, bodyBoundingVertices, bodyBoundingSpheres,
           PadsOf(levitators), state.Value())
    }

    /**
      Vehicle.ApplyPhysics: one semi-implicit Euler step of the state with
      the accumulated Force and Torque. Only the state object changes.
     */
    method ApplyPhysics(lib: Library, timeDelta: real)
      requires mass != 0.0
      modifies state
      ensures state.Value() == Integrate(lib, old(state.Value()), force, torque, mass, inverseBodyInertiaTensor, timeDelta)
    {
      state.position := Add(state.position, Scale(timeDelta, state.velocity));
      state.velocity := Add(state.velocity, Scale(timeDelta, DivScalar(force, mass)));

      state.orientation := MatAdd(state.orientation, OrientationIncrement(lib, state.orientation, state.angularVelocity, timeDelta));
      state.orientation := lib.orthonormalise(state.orientation);

      state.angularMomentum := Add(state.angularMomentum, Scale(timeDelta, torque));
      state.angularVelocity := Transform(state.angularMomentum, WorldInverseInertia(state.orientation, inverseBodyInertiaTensor));
    }
  }
}
