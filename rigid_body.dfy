/**
  The rigid-body state of a vehicle and the semi-implicit Euler step that
  Vehicle.ApplyPhysics performs on it (both copies of Vehicle.cs share it).
  RigidBodyState.cs is not part of this model: its fields are the ones the
  simulation reads and writes.
 */
module RigidBody {
  import opened Geometry

  /** The value held by a RigidBodyState object at one moment. */
  datatype BodyState = BodyState(
    position: Vec3,
    velocity: Vec3,
    orientation: Mat3,
    angularMomentum: Vec3,
    angularVelocity: Vec3)

  /** RigidBodyState: mutable, owned by one vehicle. */
  class RigidBodyState {
    var position: Vec3
    var velocity: Vec3
    var orientation: Mat3
    var angularMomentum: Vec3
    var angularVelocity: Vec3

    /** `new RigidBodyState()`: every field at its C# default, zero. */
    constructor ()
      ensures Value() == BodyState(Zero, Zero, ZeroMatrix, Zero, Zero)
    {
      position := Zero;
      velocity := Zero;
      orientation := ZeroMatrix;
      angularMomentum := Zero;
      angularVelocity := Zero;
    }

    function Value(): BodyState
      reads this
    {
      BodyState(position, velocity, orientation, angularMomentum, angularVelocity)
    }
  }

  /**
    The orientation derivative term of ApplyPhysics line 69:
    Transpose(SkewSymmetricMatrix(w) * Transpose(R)) * dt.
   */
  function OrientationIncrement(lib: Library, orientation: Mat3, angularVelocity: Vec3, timeDelta: real): Mat3
  {
    MatScale(Transpose(MatMul(lib.skewSymmetric(angularVelocity), Transpose(orientation))), timeDelta)
  }

  /** The world-space inverse inertia tensor Transpose(R) * I^-1 * R. */
  function WorldInverseInertia(orientation: Mat3, inverseBodyInertiaTensor: Mat3): Mat3
  {
    MatMul(MatMul(Transpose(orientation), inverseBodyInertiaTensor), orientation)
  }

  /**
    The state after one ApplyPhysics call, statement by statement: the
    position moves with the velocity from before the step, the velocity
    then gains Force/Mass*dt, the orientation is updated additively and then
    re-orthonormalised, the angular momentum gains Torque*dt, and the
    angular velocity is rebuilt from the new momentum and the new orientation.
   */
  function Integrate(lib: Library, s: BodyState, force: Vec3, torque: Vec3, mass: real,
                     inverseBodyInertiaTensor: Mat3, timeDelta: real): BodyState
    requires mass != 0.0
  {
    var position := Add(s.position, Scale(timeDelta, s.velocity));
    var velocity := Add(s.velocity, Scale(timeDelta, DivScalar(force, mass)));
    var updated := MatAdd(s.orientation, OrientationIncrement(lib, s.orientation, s.angularVelocity, timeDelta));
    var orientation := lib.orthonormalise(updated);
    var angularMomentum := Add(s.angularMomentum, Scale(timeDelta, torque));
    var angularVelocity := Transform(angularMomentum, WorldInverseInertia(orientation, inverseBodyInertiaTensor));
    BodyState(position, velocity, orientation, angularMomentum, angularVelocity)
  }

  /** A step of length zero leaves position, velocity and angular momentum as they were. */
  lemma ZeroStep(lib: Library, s: BodyState, force: Vec3, torque: Vec3, mass: real, invI: Mat3)
    requires mass != 0.0
    ensures var r := Integrate(lib, s, force, torque, mass, invI, 0.0);
      && r.position == s.position
      && r.velocity == s.velocity
      && r.angularMomentum == s.angularMomentum
      && r.orientation == lib.orthonormalise(s.orientation)
  {
    assert MatScale(Transpose(MatMul(lib.skewSymmetric(s.angularVelocity), Transpose(s.orientation))), 0.0) == ZeroMatrix;
  }

  /**
    The linear part of the step: the position advances by the velocity from
    before the step, so the force of this frame first moves the body one
    frame later; the velocity changes by exactly Force/Mass*dt and the
    angular momentum by exactly Torque*dt.
   */
  lemma LinearUpdate(lib: Library, s: BodyState, force: Vec3, torque: Vec3, mass: real, invI: Mat3, dt: real)
    requires mass != 0.0
    ensures var r := Integrate(lib, s, force, torque, mass, invI, dt);
      && Sub(r.position, s.position) == Scale(dt, s.velocity)
      && Scale(mass, Sub(r.velocity, s.velocity)) == Scale(dt, force)
      && Sub(r.angularMomentum, s.angularMomentum) == Scale(dt, torque)
      && r.position == Integrate(lib, s, Zero, torque, mass, invI, dt).position
  {
    VelocityChange(s.velocity, dt, force, mass);
  }

  lemma VelocityChange(v: Vec3, dt: real, force: Vec3, mass: real)
    requires mass != 0.0
    ensures Scale(mass, Sub(Add(v, Scale(dt, DivScalar(force, mass))), v)) == Scale(dt, force)
  {
    CancelMass(mass, dt, force.x, v.x);
    CancelMass(mass, dt, force.y, v.y);
    CancelMass(mass, dt, force.z, v.z);
  }

  lemma CancelMass(mass: real, dt: real, f: real, v: real)
    requires mass != 0.0
    ensures mass * ((v + dt * (f / mass)) - v) == dt * f
  {
    var q := f / mass;
    assert q * mass == f;
    assert (v + dt * q) - v == dt * q;
    assert mass * (dt * q) == dt * (q * mass);
  }

  /** The angular velocity is linear in the angular momentum: zero momentum gives zero angular velocity. */
  lemma AngularVelocityFromMomentum(lib: Library, s: BodyState, force: Vec3, torque: Vec3, mass: real, invI: Mat3, dt: real)
    requires mass != 0.0
    requires Add(s.angularMomentum, Scale(dt, torque)) == Zero
    ensures Integrate(lib, s, force, torque, mass, invI, dt).angularVelocity == Zero
  {
  }

  /**
    Zero-force equilibrium: a body at rest with no momentum, no force and no
    torque, whose orientation is a fixed point of the orthonormalisation,
    is unchanged by a step of any length, given that the skew-symmetric
    matrix of the zero vector is zero.
   */
  lemma AtRestStaysAtRest(lib: Library, s: BodyState, mass: real, invI: Mat3, dt: real)
    requires mass != 0.0
    requires lib.skewSymmetric(Zero) == ZeroMatrix
    requires lib.orthonormalise(s.orientation) == s.orientation
    requires s.velocity == Zero && s.angularMomentum == Zero && s.angularVelocity == Zero
    ensures Integrate(lib, s, Zero, Zero, mass, invI, dt) == s
  {
    assert OrientationIncrement(lib, s.orientation, Zero, dt) == ZeroMatrix;
    assert MatAdd(s.orientation, ZeroMatrix) == s.orientation;
  }
}
