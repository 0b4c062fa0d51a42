/**
  The forces and torques UpdatePhysics accumulates for one vehicle
  (source/BazookoidsCore/BazookoidsGame.cs, UpdatePhysics), as functions of
  what it reads. Each sum folds its contributions in the order the loops
  visit them, so that the loops can be proved against it step by step.
 */
module Contacts {
  import opened Geometry
  import opened Spheres
  import opened Levitators
  import opened RigidBody
  import opened Vehicles

  /** The tolerance that lets contact forces engage just before touching. */
  const CollisionBias: real := 0.004

  /** A contribution to the Force and Torque accumulators. */
  datatype Wrench = Wrench(force: Vec3, torque: Vec3)

  const NoWrench: Wrench := Wrench(Zero, Zero)

  function Plus(a: Wrench, b: Wrench): Wrench
  {
    Wrench(Add(a.force, b.force), Add(a.torque, b.torque))
  }

  function ScaleWrench(k: real, w: Wrench): Wrench
  {
    Wrench(Scale(k, w.force), Scale(k, w.torque))
  }

  lemma PlusAssociative(a: Wrench, b: Wrench, c: Wrench)
    ensures Plus(Plus(a, b), c) == Plus(a, Plus(b, c))
  {
  }

  /** `Force += f; Torque += Cross(offset, f)`: a force applied at a body-local offset. */
  function At(offset: Vec3, f: Vec3): Wrench
  {
    Wrench(f, Cross(offset, f))
  }

  /** Velocity of the point at world-oriented offset r: v + w x r. */
  function PointVelocity(s: BodyState, offset: Vec3): Vec3
  {
    Add(s.velocity, Cross(s.angularVelocity, offset))
  }

  // ---------------------------------------------------------------------------
  // Body vertices against an arena plane (lines 224-237)

  /** `CollisionBias - PointPlaneDistance(Position + offset, plane)`. */
  function VertexDepth(lib: Library, s: BodyState, plane: Plane, vertex: Vec3): real
  {
    CollisionBias - lib.pointPlaneDistance(Add(s.position, Transform(vertex, s.orientation)), plane)
  }

  /** `Mass*(75*Normal*depth - 5*velocity)`. */
  function VertexContactForce(b: Body, plane: Plane, offset: Vec3, depth: real): Vec3
  {
    Scale(b.mass, Sub(Scale(depth, Scale(BodyBoundingVertexReactionForceMultiplier, plane.normal)),
                      Scale(BodyBoundingVertexFrictionForceMultiplier, PointVelocity(b.state, offset))))
  }

  /** What one body vertex adds: the contact force when it penetrates (bias included), nothing otherwise. */
  function VertexWrench(lib: Library, b: Body, plane: Plane, vertex: Vec3): Wrench
  {
    var offset := Transform(vertex, b.state.orientation);
    var depth := VertexDepth(lib, b.state, plane, vertex);
    if depth >= 0.0 then At(offset, VertexContactForce(b, plane, offset, depth)) else NoWrench
  }

  function VertexSum(lib: Library, b: Body, plane: Plane, vertices: seq<Vec3>): Wrench
  {
    if vertices == [] then NoWrench
    else Plus(VertexSum(lib, b, plane, vertices[..|vertices| - 1]), VertexWrench(lib, b, plane, vertices[|vertices| - 1]))
  }

  // ---------------------------------------------------------------------------
  // Levitators against the floor (lines 240-274)

  /** A body axis projected onto the plane, normalised only when its length is positive. */
  function ProjectedDirection(lib: Library, direction: Vec3, plane: Plane): Vec3
  {
    var projected := lib.planeProjection(direction, plane);
    if lib.length(projected) > 0.0 then lib.normalize(projected) else projected
  }

  /** `CollisionBias - PointPlaneDistance(Position + offset, plane) + Radius`. */
  function LevitatorDepth(lib: Library, s: BodyState, plane: Plane, pad: Pad): real
  {
    CollisionBias - lib.pointPlaneDistance(Add(s.position, Transform(pad.position, s.orientation)), plane) + pad.radius
  }

  /**
    `Mass*(50*Normal*depth - 2*(v - pv)*Normal - 0.2*pv)`, pv the in-plane
    part of the pad velocity. The middle product is XNA's component-wise
    Vector3 product, not a dot product.
   */
  function LiftForce(lib: Library, b: Body, plane: Plane, offset: Vec3, depth: real): Vec3
  {
    var velocity := PointVelocity(b.state, offset);
    var projectedVelocity := lib.planeProjection(velocity, plane);
    Scale(b.mass, Sub(Sub(Scale(depth, Scale(LevitationForceMultiplier, plane.normal)),
                          Mul(Scale(VerticalFrictionForceMultiplier, Sub(velocity, projectedVelocity)), plane.normal)),
                      Scale(LateralFrictionForceMultiplier, projectedVelocity)))
  }

  /** `Mass*(PowerForce*forward + TurningForce*right)`. */
  function DriveForce(b: Body, pad: Pad, forward: Vec3, right: Vec3): Vec3
  {
    Scale(b.mass, Add(Scale(pad.powerForce, forward), Scale(pad.turningForce, right)))
  }

  /** What one levitator adds: lift and then drive when it reaches the plane, nothing when airborne. */
  function LevitatorWrench(lib: Library, b: Body, plane: Plane, pad: Pad, forward: Vec3, right: Vec3): Wrench
  {
    var offset := Transform(pad.position, b.state.orientation);
    var depth := LevitatorDepth(lib, b.state, plane, pad);
    if depth >= 0.0 then
      Plus(At(offset, LiftForce(lib, b, plane, offset, depth)), At(offset, DriveForce(b, pad, forward, right)))
    else NoWrench
  }

  function LevitatorSum(lib: Library, b: Body, plane: Plane, pads: seq<Pad>, forward: Vec3, right: Vec3): Wrench
  {
    if pads == [] then NoWrench
    else Plus(LevitatorSum(lib, b, plane, pads[..|pads| - 1], forward, right),
              LevitatorWrench(lib, b, plane, pads[|pads| - 1], forward, right))
  }

  /** All levitators of the body against the floor plane, with the projected drive directions. */
  function FloorWrench(lib: Library, b: Body, plane: Plane): Wrench
  {
    LevitatorSum(lib, b, plane, b.pads,
                 ProjectedDirection(lib, Forward(b.state.orientation), plane),
                 ProjectedDirection(lib, Right(b.state.orientation), plane))
  }

  // ---------------------------------------------------------------------------
  // The arena loop (lines 221-275)

  /** Array.IndexOf: the first index holding a plane equal to p, or -1. */
  function IndexOf(planes: seq<Plane>, p: Plane): (r: int)
    ensures -1 <= r < |planes|
    ensures 0 <= r ==> planes[r] == p && forall k :: 0 <= k < r ==> planes[k] != p
    ensures r == -1 <==> p !in planes
  {
    if planes == [] then -1
    else if planes[0] == p then 0
    else var r := IndexOf(planes[1..], p); if r < 0 then -1 else r + 1
  }

  /**
    What arena boundary k adds: its vertex contacts, then, when the
    boundary is the first one (`Array.IndexOf(boundaries, boundary) == 0`),
    the levitator contacts.
   */
  function BoundaryWrench(lib: Library, b: Body, planes: seq<Plane>, k: nat): Wrench
    requires k < |planes|
  {
    Plus(VertexSum(lib, b, planes[k], b.vertices),
         if IndexOf(planes, planes[k]) == 0 then FloorWrench(lib, b, planes[k]) else NoWrench)
  }

  /** The first n arena boundaries. */
  function ArenaSum(lib: Library, b: Body, planes: seq<Plane>, n: nat): Wrench
    requires n <= |planes|
  {
    if n == 0 then NoWrench else Plus(ArenaSum(lib, b, planes, n - 1), BoundaryWrench(lib, b, planes, n - 1))
  }

  // ---------------------------------------------------------------------------
  // Body-body contacts (lines 278-302)

  /** Every sphere has a positive radius, so a touch distance is never zero. */
  predicate RadiiPositive(spheres: seq<Sphere>)
  {
    forall k :: 0 <= k < |spheres| ==> spheres[k].radius > 0.0
  }

  predicate PositiveRadii(b: Body)
  {
    RadiiPositive(b.spheres)
  }

  /** A sphere's world centre: Position + Transform(centre, Orientation). */
  function WorldCentre(s: BodyState, sphere: Sphere): Vec3
  {
    Add(s.position, Transform(sphere.position, s.orientation))
  }

  /** The vector from the other vehicle's sphere centre to this vehicle's sphere centre. */
  function SphereSeparation(b: Body, other: Body, sphere: Sphere, otherSphere: Sphere): Vec3
  {
    Sub(WorldCentre(b.state, sphere), WorldCentre(other.state, otherSphere))
  }

  /** The two spheres touch: their centre distance is at most the sum of their radii. */
  predicate SpheresTouch(lib: Library, b: Body, other: Body, sphere: Sphere, otherSphere: Sphere)
  {
    lib.length(SphereSeparation(b, other, sphere, otherSphere)) <= sphere.radius + otherSphere.radius
  }

  /** `Mass*(30*Normalize(d)*(1 - |d|/touch) - 0.15*velocity)`. */
  function SphereContactForce(lib: Library, b: Body, offset: Vec3, separation: Vec3, touchDistance: real): Vec3
    requires touchDistance != 0.0
  {
    Scale(b.mass, Sub(Scale(1.0 - lib.length(separation) / touchDistance,
                            Scale(BodyBoundingSphereReactionForceMultiplier, lib.normalize(separation))),
                      Scale(BodyBoundingSphereFrictionForceMultiplier, PointVelocity(b.state, offset))))
  }

  /** What one sphere pair adds to the vehicle b (never to the other one): the contact force when they touch. */
  function SphereWrench(lib: Library, b: Body, other: Body, sphere: Sphere, otherSphere: Sphere): Wrench
    requires sphere.radius > 0.0 && otherSphere.radius > 0.0
  {
    var offset := Transform(sphere.position, b.state.orientation);
    var separation := SphereSeparation(b, other, sphere, otherSphere);
    var touchDistance := sphere.radius + otherSphere.radius;
    if lib.length(separation) <= touchDistance then
      At(offset, SphereContactForce(lib, b, offset, separation, touchDistance))
    else NoWrench
  }

  /** One sphere of b against the given spheres of the other vehicle. */
  function SpherePairSum(lib: Library, b: Body, other: Body, sphere: Sphere, otherSpheres: seq<Sphere>): Wrench
    requires sphere.radius > 0.0
    requires RadiiPositive(otherSpheres)
  {
    if otherSpheres == [] then NoWrench
    else Plus(SpherePairSum(lib, b, other, sphere, otherSpheres[..|otherSpheres| - 1]),
              SphereWrench(lib, b, other, sphere, otherSpheres[|otherSpheres| - 1]))
  }

  /** The given spheres of b against every sphere of the other vehicle. */
  function SphereSum(lib: Library, b: Body, other: Body, spheres: seq<Sphere>): Wrench
    requires RadiiPositive(spheres)
    requires PositiveRadii(other)
  {
    if spheres == [] then NoWrench
    else Plus(SphereSum(lib, b, other, spheres[..|spheres| - 1]),
              SpherePairSum(lib, b, other, spheres[|spheres| - 1], other.spheres))
  }

  /** The vehicle self, at index i, against the first n vehicles other than itself. */
  function BodyContactSum(lib: Library, self: Body, bodies: seq<Body>, i: int, n: nat): Wrench
    requires n <= |bodies|
    requires PositiveRadii(self)
    requires forall j :: 0 <= j < |bodies| ==> PositiveRadii(bodies[j])
  {
    if n == 0 then NoWrench
    else Plus(BodyContactSum(lib, self, bodies, i, n - 1),
              if n - 1 == i then NoWrench else SphereSum(lib, self, bodies[n - 1], self.spheres))
  }

  // ---------------------------------------------------------------------------
  // The whole accumulation for one vehicle (lines 218-304)

  /** `Force += Mass*gravity`; the torque is untouched. */
  function GravityWrench(b: Body, gravity: Vec3): Wrench
  {
    Wrench(Scale(b.mass, gravity), Zero)
  }

  predicate AllPositiveRadii(bodies: seq<Body>)
  {
    forall j :: 0 <= j < |bodies| ==> PositiveRadii(bodies[j])
  }

  /**
    Force and Torque of vehicle i at the end of its accumulation, starting
    from zero: the arena contacts, the contacts with every other vehicle,
    then gravity, all against the states of the frame before any vehicle
    moved.
   */
  function Accumulated(lib: Library, bodies: seq<Body>, planes: seq<Plane>, gravity: Vec3, i: nat): Wrench
    requires i < |bodies| && AllPositiveRadii(bodies)
  {
    Plus(Plus(Plus(NoWrench, ArenaSum(lib, bodies[i], planes, |planes|)),
              BodyContactSum(lib, bodies[i], bodies, i, |bodies|)),
         GravityWrench(bodies[i], gravity))
  }

  // ---------------------------------------------------------------------------
  // Single contacts

  /**
    A body vertex engages exactly when its biased depth is non-negative.
    It then pushes along the plane normal by 75 per unit of mass and depth
    and against the velocity of that point by 5 per unit of mass; its torque
    is always the moment of its force about the centre of mass.
   */
  lemma VertexContact(lib: Library, b: Body, plane: Plane, vertex: Vec3)
    ensures var offset := Transform(vertex, b.state.orientation);
            var depth := VertexDepth(lib, b.state, plane, vertex);
            var w := VertexWrench(lib, b, plane, vertex);
            && (depth < 0.0 ==> w == NoWrench)
            && (depth >= 0.0 ==> w.force == Sub(Scale(b.mass * 75.0 * depth, plane.normal),
                                                Scale(b.mass * 5.0, PointVelocity(b.state, offset))))
            && w.torque == Cross(offset, w.force)
  {
    var offset := Transform(vertex, b.state.orientation);
    var depth := VertexDepth(lib, b.state, plane, vertex);
    if depth >= 0.0 {
      ScaledDifference(b.mass, depth, 75.0, plane.normal, 5.0, PointVelocity(b.state, offset));
    }
  }

  /**
    Penetration pushes out: for a positive mass and a normal of positive length, the
    contact force on a point at rest that penetrates by a positive depth has
    a positive component along the plane normal, and a point that exactly
    touches (depth 0) gets no force.
   */
  lemma PenetrationPushesOut(b: Body, plane: Plane, offset: Vec3, depth: real)
    requires b.mass > 0.0 && Dot(plane.normal, plane.normal) > 0.0
    requires PointVelocity(b.state, offset) == Zero
    ensures depth > 0.0 ==> Dot(VertexContactForce(b, plane, offset, depth), plane.normal) > 0.0
    ensures depth == 0.0 ==> VertexContactForce(b, plane, offset, depth) == Zero
  {
    RestingVertexForce(b, plane, offset, depth);
    if depth > 0.0 {
      var m := b.mass * 75.0;
      PositiveProduct(m, depth);
      PositiveAlong(m * depth, plane.normal);
    }
  }

  lemma RestingVertexForce(b: Body, plane: Plane, offset: Vec3, depth: real)
    requires PointVelocity(b.state, offset) == Zero
    ensures VertexContactForce(b, plane, offset, depth) == Scale(b.mass * 75.0 * depth, plane.normal)
  {
    var n := plane.normal;
    var m := b.mass;
    assert m * (depth * (75.0 * n.x) - 5.0 * 0.0) == (m * 75.0 * depth) * n.x;
    assert m * (depth * (75.0 * n.y) - 5.0 * 0.0) == (m * 75.0 * depth) * n.y;
    assert m * (depth * (75.0 * n.z) - 5.0 * 0.0) == (m * 75.0 * depth) * n.z;
  }

  /**
    A drive direction is normalised only when its projection has positive
    length; with length(Zero) == 0, an axis that projects to zero gives the
    zero direction.
   */
  lemma ZeroProjectionZeroDirection(lib: Library, direction: Vec3, plane: Plane)
    requires LengthOfZero(lib)
    ensures var projected := lib.planeProjection(direction, plane);
            && (projected == Zero ==> ProjectedDirection(lib, direction, plane) == Zero)
            && (lib.length(projected) > 0.0 ==> ProjectedDirection(lib, direction, plane) == lib.normalize(projected))
  {
  }

  /** When both body axes project to zero on the plane, no levitator can drive the vehicle. */
  lemma FlatAxesGiveNoDrive(lib: Library, b: Body, plane: Plane, pad: Pad)
    requires LengthOfZero(lib)
    requires lib.planeProjection(Forward(b.state.orientation), plane) == Zero
    requires lib.planeProjection(Right(b.state.orientation), plane) == Zero
    ensures DriveForce(b, pad, ProjectedDirection(lib, Forward(b.state.orientation), plane),
                       ProjectedDirection(lib, Right(b.state.orientation), plane)) == Zero
  {
    ZeroProjectionZeroDirection(lib, Forward(b.state.orientation), plane);
    ZeroProjectionZeroDirection(lib, Right(b.state.orientation), plane);
  }

  /** An airborne levitator adds nothing, whatever its PowerForce and TurningForce. */
  lemma AirborneLevitatorInert(lib: Library, b: Body, plane: Plane, pad: Pad, forward: Vec3, right: Vec3)
    requires LevitatorDepth(lib, b.state, plane, pad) < 0.0
    ensures forall power: real, turning: real ::
      LevitatorWrench(lib, b, plane, pad.(powerForce := power, turningForce := turning), forward, right) == NoWrench
  {
  }

  /**
    Thrust is coupled to ground contact: a levitator in contact adds what
    it would add with idle commands plus exactly
    Mass*(PowerForce*forward + TurningForce*right), applied at its anchor.
   */
  lemma DriveOnlyInContact(lib: Library, b: Body, plane: Plane, pad: Pad, forward: Vec3, right: Vec3)
    requires LevitatorDepth(lib, b.state, plane, pad) >= 0.0
    ensures var idle := pad.(powerForce := 0.0, turningForce := 0.0);
            var offset := Transform(pad.position, b.state.orientation);
            var drive := Scale(b.mass, Add(Scale(pad.powerForce, forward), Scale(pad.turningForce, right)));
            LevitatorWrench(lib, b, plane, pad, forward, right)
            == Plus(LevitatorWrench(lib, b, plane, idle, forward, right), At(offset, drive))
  {
    var idle := pad.(powerForce := 0.0, turningForce := 0.0);
    var offset := Transform(pad.position, b.state.orientation);
    var depth := LevitatorDepth(lib, b.state, plane, pad);
    var lift := At(offset, LiftForce(lib, b, plane, offset, depth));
    assert LevitatorDepth(lib, b.state, plane, idle) == depth;
    IdleDrive(b, idle, forward, right);
    assert LevitatorWrench(lib, b, plane, idle, forward, right) == Plus(lift, At(offset, Zero));
    PlusZeroForce(lift, offset);
  }

  lemma IdleDrive(b: Body, pad: Pad, forward: Vec3, right: Vec3)
    requires pad.powerForce == 0.0 && pad.turningForce == 0.0
    ensures DriveForce(b, pad, forward, right) == Zero
  {
  }

  lemma PlusNothing(w: Wrench)
    ensures Plus(w, NoWrench) == w
  {
  }

  lemma PlusZeroForce(w: Wrench, offset: Vec3)
    ensures Plus(w, At(offset, Zero)) == w
  {
  }

  /**
    A levitator at rest (zero velocity at its anchor, whose in-plane part is
    zero) is lifted straight along the plane normal by 50 per unit of mass
    and depth: the vertical and lateral friction terms vanish.
   */
  lemma RestingLift(lib: Library, b: Body, plane: Plane, pad: Pad, depth: real)
    requires lib.planeProjection(Zero, plane) == Zero
    requires PointVelocity(b.state, Transform(pad.position, b.state.orientation)) == Zero
    ensures LiftForce(lib, b, plane, Transform(pad.position, b.state.orientation), depth)
            == Scale(b.mass * 50.0 * depth, plane.normal)
  {
  }

  /**
    A sphere pair engages exactly when the centres d = |separation| are at
    most t = the sum of the radii apart. It then pushes along the normalised
    separation by 30 per unit of mass, faded by 1 - d/t, and against the
    velocity of the sphere's centre by 0.15 per unit of mass; its torque is
    the moment of its force. The fade lies in [0, 1] and vanishes exactly at
    touching distance.
   */
  lemma SphereContact(lib: Library, b: Body, other: Body, sphere: Sphere, otherSphere: Sphere)
    requires sphere.radius > 0.0 && otherSphere.radius > 0.0
    ensures var offset := Transform(sphere.position, b.state.orientation);
            var separation := SphereSeparation(b, other, sphere, otherSphere);
            var d, t := lib.length(separation), sphere.radius + otherSphere.radius;
            var w := SphereWrench(lib, b, other, sphere, otherSphere);
            && (d > t ==> w == NoWrench)
            && (d <= t ==> w.force == Sub(Scale(b.mass * 30.0 * (1.0 - d / t), lib.normalize(separation)),
                                          Scale(b.mass * 0.15, PointVelocity(b.state, offset))))
            && w.torque == Cross(offset, w.force)
            && (0.0 <= d <= t ==> 0.0 <= 1.0 - d / t <= 1.0 && (1.0 - d / t == 0.0 <==> d == t))
  {
    var offset := Transform(sphere.position, b.state.orientation);
    var separation := SphereSeparation(b, other, sphere, otherSphere);
    var d, t := lib.length(separation), sphere.radius + otherSphere.radius;
    var w := SphereWrench(lib, b, other, sphere, otherSphere);
    if d <= t {
      var f := SphereContactForce(lib, b, offset, separation, t);
      assert w == At(offset, f);
      ScaledDifference(b.mass, 1.0 - d / t, 30.0, lib.normalize(separation), 0.15, PointVelocity(b.state, offset));
    } else {
      assert w == NoWrench;
    }
    ContactFade(d, t);
  }

  /** For a distance within the touching distance, the fade 1 - d/t is in [0, 1] and vanishes only at d == t. */
  lemma ContactFade(d: real, t: real)
    requires t > 0.0
    ensures 0.0 <= d <= t ==> 0.0 <= 1.0 - d / t <= 1.0 && (1.0 - d / t == 0.0 <==> d == t)
  {
    if 0.0 <= d <= t {
      FractionBounds(d, t);
    }
  }

  /**
    At rest, the sphere contact force points along the normalised
    separation, away from the other sphere, with a strength that fades
    linearly from 30 per unit of mass at coincident centres to 0 at exactly
    touching distance.
   */
  lemma RestingSphereForce(lib: Library, b: Body, offset: Vec3, separation: Vec3, touchDistance: real)
    requires touchDistance > 0.0
    requires PointVelocity(b.state, offset) == Zero
    ensures SphereContactForce(lib, b, offset, separation, touchDistance)
            == Scale(b.mass * 30.0 * (1.0 - lib.length(separation) / touchDistance), lib.normalize(separation))
  {
    var factor := 1.0 - lib.length(separation) / touchDistance;
    ScaledDifference(b.mass, factor, 30.0, lib.normalize(separation), 0.15, PointVelocity(b.state, offset));
  }

  // ---------------------------------------------------------------------------
  // Which arena planes the levitators see

  /** `Array.IndexOf(boundaries, boundaries[k]) == 0` holds exactly for the planes equal to the first one. */
  lemma FirstPlaneTest(planes: seq<Plane>, k: nat)
    requires k < |planes|
    ensures IndexOf(planes, planes[k]) == 0 <==> planes[k] == planes[0]
  {
  }

  predicate DistinctPlanes(planes: seq<Plane>)
  {
    forall j, k :: 0 <= j < k < |planes| ==> planes[j] != planes[k]
  }

  /**
    With distinct arena planes, the first plane gets the vertex and
    levitator contacts and every later plane (a wall) only the vertex
    contacts: walls never lift or drive.
   */
  lemma OnlyTheFloorLevitates(lib: Library, b: Body, planes: seq<Plane>, k: nat)
    requires DistinctPlanes(planes) && k < |planes|
    ensures k == 0 ==> BoundaryWrench(lib, b, planes, k) == Plus(VertexSum(lib, b, planes[0], b.vertices), FloorWrench(lib, b, planes[0]))
    ensures k > 0 ==> BoundaryWrench(lib, b, planes, k) == VertexSum(lib, b, planes[k], b.vertices)
  {
    FirstPlaneTest(planes, k);
  }

  // ---------------------------------------------------------------------------
  // Contacts that do not engage add nothing

  /** The vertices that reach the plane, in order. */
  function Penetrating(lib: Library, b: Body, plane: Plane, vertices: seq<Vec3>): (r: seq<Vec3>)
    ensures |r| <= |vertices|
    ensures forall k :: 0 <= k < |r| ==> r[k] in vertices && VertexDepth(lib, b.state, plane, r[k]) >= 0.0
    ensures forall v :: v in vertices && VertexDepth(lib, b.state, plane, v) >= 0.0 ==> v in r
  {
    if vertices == [] then []
    else
      var init := Penetrating(lib, b, plane, vertices[..|vertices| - 1]);
      var last := vertices[|vertices| - 1];
      if VertexDepth(lib, b.state, plane, last) >= 0.0 then init + [last] else init
  }

  /** Non-contacting vertices change nothing: the sum over all vertices is the sum over the penetrating ones. */
  lemma {:induction false} OnlyPenetratingVerticesCount(lib: Library, b: Body, plane: Plane, vertices: seq<Vec3>)
    ensures VertexSum(lib, b, plane, vertices) == VertexSum(lib, b, plane, Penetrating(lib, b, plane, vertices))
  {
    if vertices != [] {
      var init := vertices[..|vertices| - 1];
      var last := vertices[|vertices| - 1];
      var w := VertexWrench(lib, b, plane, last);
      OnlyPenetratingVerticesCount(lib, b, plane, init);
      var p := Penetrating(lib, b, plane, init);
      var sum := VertexSum(lib, b, plane, p);
      assert VertexSum(lib, b, plane, vertices) == Plus(sum, w);
      if VertexDepth(lib, b.state, plane, last) >= 0.0 {
        var q := p + [last];
        assert Penetrating(lib, b, plane, vertices) == q;
        assert q[..|q| - 1] == p && q[|q| - 1] == last;
        assert VertexSum(lib, b, plane, q) == Plus(sum, w);
      } else {
        assert Penetrating(lib, b, plane, vertices) == p;
        assert w == NoWrench;
        PlusNothing(sum);
      }
    }
  }

  /** A body none of whose vertices reaches a plane gets no force and no torque from its vertices on it. */
  lemma SeparatedVerticesAddNothing(lib: Library, b: Body, plane: Plane, vertices: seq<Vec3>)
    requires forall k :: 0 <= k < |vertices| ==> VertexDepth(lib, b.state, plane, vertices[k]) < 0.0
    ensures VertexSum(lib, b, plane, vertices) == NoWrench
  {
    OnlyPenetratingVerticesCount(lib, b, plane, vertices);
  }

  /** The levitators that reach the plane, in order. */
  function Grounded(lib: Library, b: Body, plane: Plane, pads: seq<Pad>): (r: seq<Pad>)
    ensures |r| <= |pads|
    ensures forall k :: 0 <= k < |r| ==> r[k] in pads && LevitatorDepth(lib, b.state, plane, r[k]) >= 0.0
    ensures forall p :: p in pads && LevitatorDepth(lib, b.state, plane, p) >= 0.0 ==> p in r
  {
    if pads == [] then []
    else
      var init := Grounded(lib, b, plane, pads[..|pads| - 1]);
      var last := pads[|pads| - 1];
      if LevitatorDepth(lib, b.state, plane, last) >= 0.0 then init + [last] else init
  }

  /** Airborne levitators change nothing, whatever they are commanded: only the grounded ones count. */
  lemma {:induction false} OnlyGroundedLevitatorsCount(lib: Library, b: Body, plane: Plane, pads: seq<Pad>, forward: Vec3, right: Vec3)
    ensures LevitatorSum(lib, b, plane, pads, forward, right)
            == LevitatorSum(lib, b, plane, Grounded(lib, b, plane, pads), forward, right)
  {
    if pads != [] {
      var init := pads[..|pads| - 1];
      var last := pads[|pads| - 1];
      var w := LevitatorWrench(lib, b, plane, last, forward, right);
      OnlyGroundedLevitatorsCount(lib, b, plane, init, forward, right);
      var p := Grounded(lib, b, plane, init);
      var sum := LevitatorSum(lib, b, plane, p, forward, right);
      assert LevitatorSum(lib, b, plane, pads, forward, right) == Plus(sum, w);
      if LevitatorDepth(lib, b.state, plane, last) >= 0.0 {
        var q := p + [last];
        assert Grounded(lib, b, plane, pads) == q;
        assert q[..|q| - 1] == p && q[|q| - 1] == last;
        assert LevitatorSum(lib, b, plane, q, forward, right) == Plus(sum, w);
      } else {
        assert Grounded(lib, b, plane, pads) == p;
        assert w == NoWrench;
        PlusNothing(sum);
      }
    }
  }

  /** No sphere of self touches any sphere of other. */
  predicate Apart(lib: Library, self: Body, other: Body)
  {
    forall k, l :: 0 <= k < |self.spheres| && 0 <= l < |other.spheres| ==>
      !SpheresTouch(lib, self, other, self.spheres[k], other.spheres[l])
  }

  lemma {:induction false} PairSumApart(lib: Library, b: Body, other: Body, sphere: Sphere, otherSpheres: seq<Sphere>)
    requires sphere.radius > 0.0
    requires RadiiPositive(otherSpheres)
    requires forall k :: 0 <= k < |otherSpheres| ==> !SpheresTouch(lib, b, other, sphere, otherSpheres[k])
    ensures SpherePairSum(lib, b, other, sphere, otherSpheres) == NoWrench
  {
    if otherSpheres != [] {
      PairSumApart(lib, b, other, sphere, otherSpheres[..|otherSpheres| - 1]);
    }
  }

  lemma {:induction false} SphereSumApart(lib: Library, b: Body, other: Body, spheres: seq<Sphere>)
    requires RadiiPositive(spheres)
    requires PositiveRadii(other)
    requires forall k, l :: 0 <= k < |spheres| && 0 <= l < |other.spheres| ==>
               !SpheresTouch(lib, b, other, spheres[k], other.spheres[l])
    ensures SphereSum(lib, b, other, spheres) == NoWrench
  {
    if spheres != [] {
      SphereSumApart(lib, b, other, spheres[..|spheres| - 1]);
      PairSumApart(lib, b, other, spheres[|spheres| - 1], other.spheres);
    }
  }

  /** A vehicle none of whose spheres touches a sphere of another vehicle gets no body-body force or torque. */
  lemma {:induction false} DistantVehiclesDoNotInteract(lib: Library, self: Body, bodies: seq<Body>, i: int, n: nat)
    requires n <= |bodies| && PositiveRadii(self) && AllPositiveRadii(bodies)
    requires forall j :: 0 <= j < n && j != i ==> Apart(lib, self, bodies[j])
    ensures BodyContactSum(lib, self, bodies, i, n) == NoWrench
  {
    if n > 0 {
      DistantVehiclesDoNotInteract(lib, self, bodies, i, n - 1);
      if n - 1 != i {
        SphereSumApart(lib, self, bodies[n - 1], self.spheres);
      }
    }
  }

  /**
    A vehicle is never tested against itself: its body-body forces do not
    depend on what sits at its own index, only on the other vehicles.
   */
  lemma {:induction false} SelfNeverTested(lib: Library, self: Body, bodies: seq<Body>, i: nat, n: nat, replacement: Body)
    requires i < |bodies| && n <= |bodies|
    requires PositiveRadii(self) && AllPositiveRadii(bodies) && PositiveRadii(replacement)
    ensures AllPositiveRadii(bodies[i := replacement])
    ensures BodyContactSum(lib, self, bodies[i := replacement], i, n) == BodyContactSum(lib, self, bodies, i, n)
  {
    if n > 0 {
      SelfNeverTested(lib, self, bodies, i, n - 1, replacement);
    }
  }

  // ---------------------------------------------------------------------------
  // Every force is proportional to the vehicle's own mass

  /** The same vehicle with unit mass. */
  function Unit(b: Body): Body
  {
    b.(mass := 1.0)
  }

  lemma AtScale(offset: Vec3, m: real, f: Vec3)
    ensures At(offset, Scale(m, f)) == ScaleWrench(m, At(offset, f))
  {
    CrossScale(offset, m, f);
  }

  lemma PlusScale(m: real, a: Wrench, c: Wrench)
    ensures ScaleWrench(m, Plus(a, c)) == Plus(ScaleWrench(m, a), ScaleWrench(m, c))
  {
  }

  lemma VertexScales(lib: Library, b: Body, plane: Plane, vertex: Vec3)
    ensures VertexWrench(lib, b, plane, vertex) == ScaleWrench(b.mass, VertexWrench(lib, Unit(b), plane, vertex))
  {
    var offset := Transform(vertex, b.state.orientation);
    var depth := VertexDepth(lib, b.state, plane, vertex);
    if depth >= 0.0 {
      var f := VertexContactForce(Unit(b), plane, offset, depth);
      assert VertexContactForce(b, plane, offset, depth) == Scale(b.mass, f);
      AtScale(offset, b.mass, f);
    }
  }

  lemma {:induction false} VertexSumScales(lib: Library, b: Body, plane: Plane, vertices: seq<Vec3>)
    ensures VertexSum(lib, b, plane, vertices) == ScaleWrench(b.mass, VertexSum(lib, Unit(b), plane, vertices))
  {
    if vertices != [] {
      VertexSumScales(lib, b, plane, vertices[..|vertices| - 1]);
      VertexScales(lib, b, plane, vertices[|vertices| - 1]);
      PlusScale(b.mass, VertexSum(lib, Unit(b), plane, vertices[..|vertices| - 1]),
                VertexWrench(lib, Unit(b), plane, vertices[|vertices| - 1]));
    }
  }

  lemma LevitatorScales(lib: Library, b: Body, plane: Plane, pad: Pad, forward: Vec3, right: Vec3)
    ensures LevitatorWrench(lib, b, plane, pad, forward, right)
            == ScaleWrench(b.mass, LevitatorWrench(lib, Unit(b), plane, pad, forward, right))
  {
    var offset := Transform(pad.position, b.state.orientation);
    var depth := LevitatorDepth(lib, b.state, plane, pad);
    if depth >= 0.0 {
      var lift := LiftForce(lib, Unit(b), plane, offset, depth);
      var drive := DriveForce(Unit(b), pad, forward, right);
      assert LiftForce(lib, b, plane, offset, depth) == Scale(b.mass, lift);
      assert DriveForce(b, pad, forward, right) == Scale(b.mass, drive);
      AtScale(offset, b.mass, lift);
      AtScale(offset, b.mass, drive);
      PlusScale(b.mass, At(offset, lift), At(offset, drive));
    }
  }

  lemma {:induction false} LevitatorSumScales(lib: Library, b: Body, plane: Plane, pads: seq<Pad>, forward: Vec3, right: Vec3)
    ensures LevitatorSum(lib, b, plane, pads, forward, right)
            == ScaleWrench(b.mass, LevitatorSum(lib, Unit(b), plane, pads, forward, right))
  {
    if pads != [] {
      LevitatorSumScales(lib, b, plane, pads[..|pads| - 1], forward, right);
      LevitatorScales(lib, b, plane, pads[|pads| - 1], forward, right);
      PlusScale(b.mass, LevitatorSum(lib, Unit(b), plane, pads[..|pads| - 1], forward, right),
                LevitatorWrench(lib, Unit(b), plane, pads[|pads| - 1], forward, right));
    }
  }

  lemma BoundaryScales(lib: Library, b: Body, planes: seq<Plane>, k: nat)
    requires k < |planes|
    ensures BoundaryWrench(lib, b, planes, k) == ScaleWrench(b.mass, BoundaryWrench(lib, Unit(b), planes, k))
  {
    var plane := planes[k];
    VertexSumScales(lib, b, plane, b.vertices);
    LevitatorSumScales(lib, b, plane, b.pads,
                       ProjectedDirection(lib, Forward(b.state.orientation), plane),
                       ProjectedDirection(lib, Right(b.state.orientation), plane));
    var floor := if IndexOf(planes, plane) == 0 then FloorWrench(lib, Unit(b), plane) else NoWrench;
    PlusScale(b.mass, VertexSum(lib, Unit(b), plane, b.vertices), floor);
  }

  lemma {:induction false} ArenaSumScales(lib: Library, b: Body, planes: seq<Plane>, n: nat)
    requires n <= |planes|
    ensures ArenaSum(lib, b, planes, n) == ScaleWrench(b.mass, ArenaSum(lib, Unit(b), planes, n))
  {
    if n > 0 {
      ArenaSumScales(lib, b, planes, n - 1);
      BoundaryScales(lib, b, planes, n - 1);
      PlusScale(b.mass, ArenaSum(lib, Unit(b), planes, n - 1), BoundaryWrench(lib, Unit(b), planes, n - 1));
    }
  }

  lemma SphereScales(lib: Library, b: Body, other: Body, sphere: Sphere, otherSphere: Sphere)
    requires sphere.radius > 0.0 && otherSphere.radius > 0.0
    ensures SphereWrench(lib, b, other, sphere, otherSphere)
            == ScaleWrench(b.mass, SphereWrench(lib, Unit(b), other, sphere, otherSphere))
  {
    var offset := Transform(sphere.position, b.state.orientation);
    var separation := SphereSeparation(b, other, sphere, otherSphere);
    var touchDistance := sphere.radius + otherSphere.radius;
    if lib.length(separation) <= touchDistance {
      var f := SphereContactForce(lib, Unit(b), offset, separation, touchDistance);
      assert SphereContactForce(lib, b, offset, separation, touchDistance) == Scale(b.mass, f);
      AtScale(offset, b.mass, f);
    }
  }

  lemma {:induction false} SpherePairSumScales(lib: Library, b: Body, other: Body, sphere: Sphere, otherSpheres: seq<Sphere>)
    requires sphere.radius > 0.0
    requires RadiiPositive(otherSpheres)
    ensures SpherePairSum(lib, b, other, sphere, otherSpheres)
            == ScaleWrench(b.mass, SpherePairSum(lib, Unit(b), other, sphere, otherSpheres))
  {
    if otherSpheres != [] {
      var init := otherSpheres[..|otherSpheres| - 1];
      var last := otherSpheres[|otherSpheres| - 1];
      SpherePairSumScales(lib, b, other, sphere, init);
      SphereScales(lib, b, other, sphere, last);
      PlusScale(b.mass, SpherePairSum(lib, Unit(b), other, sphere, init), SphereWrench(lib, Unit(b), other, sphere, last));
    }
  }

  lemma {:induction false} SphereSumScales(lib: Library, b: Body, other: Body, spheres: seq<Sphere>)
    requires RadiiPositive(spheres)
    requires PositiveRadii(other)
    ensures SphereSum(lib, b, other, spheres) == ScaleWrench(b.mass, SphereSum(lib, Unit(b), other, spheres))
  {
    if spheres != [] {
      var init := spheres[..|spheres| - 1];
      var last := spheres[|spheres| - 1];
      SphereSumScales(lib, b, other, init);
      SpherePairSumScales(lib, b, other, last, other.spheres);
      PlusScale(b.mass, SphereSum(lib, Unit(b), other, init), SpherePairSum(lib, Unit(b), other, last, other.spheres));
    }
  }

  lemma {:induction false} BodyContactSumScales(lib: Library, self: Body, bodies: seq<Body>, i: int, n: nat)
    requires n <= |bodies| && PositiveRadii(self) && AllPositiveRadii(bodies)
    ensures BodyContactSum(lib, self, bodies, i, n) == ScaleWrench(self.mass, BodyContactSum(lib, Unit(self), bodies, i, n))
  {
    if n > 0 {
      BodyContactSumScales(lib, self, bodies, i, n - 1);
      var term := if n - 1 == i then NoWrench else SphereSum(lib, Unit(self), bodies[n - 1], self.spheres);
      if n - 1 != i {
        SphereSumScales(lib, self, bodies[n - 1], self.spheres);
      }
      PlusScale(self.mass, BodyContactSum(lib, Unit(self), bodies, i, n - 1), term);
    }
  }

  /**
    Every contribution is a multiple of the vehicle's own mass: the force
    and torque accumulated for vehicle i are its mass times those of the
    same vehicle with unit mass, the other vehicles unchanged. Force/Mass,
    the acceleration, does not depend on the mass, and two vehicles in the
    same contact get forces in the ratio of their masses.
   */
  lemma AccumulatedScalesWithMass(lib: Library, bodies: seq<Body>, planes: seq<Plane>, gravity: Vec3, i: nat)
    requires i < |bodies| && AllPositiveRadii(bodies)
    ensures AllPositiveRadii(bodies[i := Unit(bodies[i])])
    ensures Accumulated(lib, bodies, planes, gravity, i)
            == ScaleWrench(bodies[i].mass, Accumulated(lib, bodies[i := Unit(bodies[i])], planes, gravity, i))
  {
    var b := bodies[i];
    var m := b.mass;
    var unitBodies := bodies[i := Unit(b)];
    SelfNeverTested(lib, Unit(b), bodies, i, |bodies|, Unit(b));
    ArenaSumScales(lib, b, planes, |planes|);
    BodyContactSumScales(lib, b, bodies, i, |bodies|);
    var arena := ArenaSum(lib, Unit(b), planes, |planes|);
    var contacts := BodyContactSum(lib, Unit(b), bodies, i, |bodies|);
    var gravityTerm := GravityWrench(Unit(b), gravity);
    assert GravityWrench(b, gravity) == ScaleWrench(m, gravityTerm);
    PlusScale(m, NoWrench, arena);
    PlusScale(m, Plus(NoWrench, arena), contacts);
    PlusScale(m, Plus(Plus(NoWrench, arena), contacts), gravityTerm);
  }
}
