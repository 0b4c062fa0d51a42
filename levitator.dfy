/**
  BazookoidsCore/Simulation/Levitator.cs: a hover pad fixed to a vehicle.
  The input layer writes its power and turning force every frame; the
  physics step only reads them.
 */
module Levitators {
  import opened Geometry

  const LevitationForceMultiplier: real := 50.0
  const VerticalFrictionForceMultiplier: real := 2.0
  const LateralFrictionForceMultiplier: real := 0.2

  /** The value of a Levitator at one moment, as the physics step reads it. */
  datatype Pad = Pad(position: Vec3, radius: real, powerForce: real, turningForce: real)

  class Levitator {
    /** Body-local anchor point (the property is spelled `Positon` in the C# class). */
    var position: Vec3
    var radius: real
    var powerForce: real
    var turningForce: real

    /** Stores the anchor and radius; the drive commands start at 0. */
    constructor (position: Vec3, radius: real)
      ensures Value() == Pad(position, radius, 0.0, 0.0)
    {
      this.position := position;
      this.radius := radius;
      powerForce := 0.0;
      turningForce := 0.0;
    }

    function Value(): Pad
      reads this
    {
      Pad(position, radius, powerForce, turningForce)
    }
  }
}
