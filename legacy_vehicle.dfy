/**
  BazookoidsCore/Simulation/Vehicle.cs: the older copy of the vehicle class.
  It has the same properties and the same ApplyPhysics, separate braking and
  front/rear turning magnitudes, and no constructor, so its arrays and its
  State start out null.
 */
module LegacyVehicles {
  import opened Geometry
  import opened Spheres
  import opened Levitators
  import opened RigidBody
  import Vehicles

  const BodyBoundingVertexReactionForceMultiplier: real := 75.0
  const BodyBoundingVertexFrictionForceMultiplier: real := 5.0

  const BodyBoundingSphereReactionForceMultiplier: real := 30.0
  const BodyBoundingSphereFrictionForceMultiplier: real := 0.15

  const BrakeForceMagnitude: real := 5.0
  const PowerForceMagnitude: real := 10.0
  const FrontTurningForceMagnitude: real := 2.0
  const RearTurningForceMagnitude: real := 2.0

  class Vehicle {
    var mass: real
    var inverseBodyInertiaTensor: Mat3
    var bodyBoundingVertices: seq<Vec3>
    var bodyBoundingSpheres: seq<Sphere>
    var levitators: seq<Levitator>
    /** Null until someone assigns it: the class has no constructor. */
    var state: RigidBodyState?
    var force: Vec3
    var torque: Vec3
    var highlightColour: Vec3

    /**
      Vehicle.ApplyPhysics of the older copy: the same step as the newer
      one. A vehicle whose State was never assigned would throw, so the
      state must be set.
     */
    method ApplyPhysics(lib: Library, timeDelta: real)
      requires state != null && mass != 0.0
      modifies state
      ensures state.Value() == Integrate(lib, old(state.Value()), force, torque, mass, inverseBodyInertiaTensor, timeDelta)
    {
      state.position := Add(state.position, Scale(timeDelta, state.velocity));
      state.velocity := Add(state.velocity, Scale(timeDelta, DivScalar(force, mass)));

      state.orientation := MatAdd(state.orientation, OrientationIncrement(lib, state.orientation, state.angularVelocity, timeDelta));
      state.orientation := lib.orthonormalise(state.orientation);

      state.angularMomentum := Add(state.angularMomentum, Scale(timeDelta, torque));
      state.angularVelocity := Transform(state.angularMomentum, WorldInverseInertia(state.orientation, inverseBodyInertiaTensor));
    }
  }

  /** The contact and power constants of the two copies agree; only the turning constants were renamed. */
  lemma ConstantsAgree()
    ensures BodyBoundingVertexReactionForceMultiplier == Vehicles.BodyBoundingVertexReactionForceMultiplier == 75.0
    ensures BodyBoundingVertexFrictionForceMultiplier == Vehicles.BodyBoundingVertexFrictionForceMultiplier == 5.0
    ensures BodyBoundingSphereReactionForceMultiplier == Vehicles.BodyBoundingSphereReactionForceMultiplier == 30.0
    ensures BodyBoundingSphereFrictionForceMultiplier == Vehicles.BodyBoundingSphereFrictionForceMultiplier == 0.15
    ensures PowerForceMagnitude == Vehicles.PowerForceMagnitude == 10.0
    ensures FrontTurningForceMagnitude == RearTurningForceMagnitude == Vehicles.TurningForceMagnitude == 2.0
    ensures BrakeForceMagnitude == 5.0
  {
  }
}
