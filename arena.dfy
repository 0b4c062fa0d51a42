/**
  source/BazookoidsCore/BazookoidsGame.cs, Initialize (lines 427-438): the
  five planes that bound the arena and the gravity vector.
 */
module Arena {
  import opened Geometry
  import opened Vehicles
  import opened Contacts

  const Floor: Plane := Plane(UnitY, 0.0)
  const LowXWall: Plane := Plane(UnitX, -50.0)
  const HighXWall: Plane := Plane(Neg(UnitX), -50.0)
  const LowZWall: Plane := Plane(UnitZ, -50.0)
  const HighZWall: Plane := Plane(Neg(UnitZ), -50.0)

  /** Floor first, then the four walls 50 units from the centre. */
  const ArenaBoundaries: seq<Plane> := [Floor, LowXWall, HighXWall, LowZWall, HighZWall]

  /** `_gravity`: 9.81 downwards along the y axis. */
  const Gravity: Vec3 := Vec3(0.0, -9.81, 0.0)

  /** The five arena planes are pairwise different, so only the floor gets levitator contacts. */
  lemma ArenaPlanesDistinct()
    ensures DistinctPlanes(ArenaBoundaries)
  {
    assert UnitX != Neg(UnitX) && UnitZ != Neg(UnitZ);
  }

  /**
    Under the signed-distance convention, the distance of a point from each
    arena plane is its height above the floor, or how far it is inside the
    wall at x = -50, x = 50, z = -50 or z = 50.
   */
  lemma ArenaDistances(lib: Library, p: Vec3)
    requires SignedDistance(lib)
    ensures lib.pointPlaneDistance(p, Floor) == p.y
    ensures lib.pointPlaneDistance(p, LowXWall) == p.x + 50.0
    ensures lib.pointPlaneDistance(p, HighXWall) == 50.0 - p.x
    ensures lib.pointPlaneDistance(p, LowZWall) == p.z + 50.0
    ensures lib.pointPlaneDistance(p, HighZWall) == 50.0 - p.z
  {
  }

  /**
    Each arena plane engages a point exactly in a thin band at or beyond
    it: the floor for heights up to the bias, each wall for points within
    the bias of (or past) x = -50, x = 50, z = -50 or z = 50.
   */
  lemma ArenaContactRegions(lib: Library, p: Vec3)
    requires SignedDistance(lib)
    ensures CollisionBias - lib.pointPlaneDistance(p, Floor) >= 0.0 <==> p.y <= 0.004
    ensures CollisionBias - lib.pointPlaneDistance(p, LowXWall) >= 0.0 <==> p.x <= -49.996
    ensures CollisionBias - lib.pointPlaneDistance(p, HighXWall) >= 0.0 <==> p.x >= 49.996
    ensures CollisionBias - lib.pointPlaneDistance(p, LowZWall) >= 0.0 <==> p.z <= -49.996
    ensures CollisionBias - lib.pointPlaneDistance(p, HighZWall) >= 0.0 <==> p.z >= 49.996
  {
    ArenaDistances(lib, p);
  }

  /**
    The centre of the arena lies on the positive side of every boundary:
    each normal points into the arena, so the depth term of a contact
    pushes a body back inside.
   */
  lemma ArenaCentreInside(lib: Library)
    requires SignedDistance(lib)
    ensures lib.pointPlaneDistance(Zero, Floor) == 0.0
    ensures lib.pointPlaneDistance(Zero, LowXWall) == lib.pointPlaneDistance(Zero, HighXWall) == 50.0
    ensures lib.pointPlaneDistance(Zero, LowZWall) == lib.pointPlaneDistance(Zero, HighZWall) == 50.0
  {
    ArenaDistances(lib, Zero);
  }

  /**
    In this arena the floor, which comes first, gets the vertex and
    levitator contacts and each of the four walls only the vertex contacts.
   */
  lemma OnlyTheArenaFloorLevitates(lib: Library, b: Body, k: nat)
    requires k < |ArenaBoundaries|
    ensures k == 0 ==> BoundaryWrench(lib, b, ArenaBoundaries, k)
                       == Plus(VertexSum(lib, b, Floor, b.vertices), FloorWrench(lib, b, Floor))
    ensures k > 0 ==> BoundaryWrench(lib, b, ArenaBoundaries, k) == VertexSum(lib, b, ArenaBoundaries[k], b.vertices)
  {
    ArenaPlanesDistinct();
    OnlyTheFloorLevitates(lib, b, ArenaBoundaries, k);
  }

  /** The game's gravity pulls a vehicle straight down by 9.81 per unit of mass and never turns it. */
  lemma GravityPullsDown(b: Body)
    ensures GravityWrench(b, Gravity) == Wrench(Vec3(0.0, -9.81 * b.mass, 0.0), Zero)
    ensures b.mass > 0.0 ==> GravityWrench(b, Gravity).force.y < 0.0
  {
  }
}
