/**
  source/BazookoidsCore/BazookoidsGame.cs: the per-frame physics step
  (UpdatePhysics), the start-of-round reset (ResetGame) and the part of
  Update that turns the keyboard into levitator commands, camera toggles
  and resets before stepping the physics.
 */
module Game {
  import opened Geometry
  import opened Spheres
  import opened Levitators
  import opened RigidBody
  import opened Vehicles
  import opened Contacts
  import opened Arena

  // ---------------------------------------------------------------------------
  // Keyboard, levitator commands and cameras (lines 481-547)

  /** The keys Update looks at; a keyboard state is the set of keys held down. */
  datatype Key = W | S | A | D | UpArrow | DownArrow | LeftArrow | RightArrow | C | N | Space

  /** The keys one player drives with. */
  datatype Controls = Controls(forward: Key, backward: Key, right: Key, left: Key)

  const RedControls: Controls := Controls(W, S, D, A)
  const YellowControls: Controls := Controls(UpArrow, DownArrow, RightArrow, LeftArrow)

  /** `IsKeyDown(forward) ? magnitude : IsKeyDown(backward) ? -magnitude : 0`. */
  function Command(keys: set<Key>, forward: Key, backward: Key, magnitude: real): real
  {
    if forward in keys then magnitude else if backward in keys then -magnitude else 0.0
  }

  function PowerCommand(keys: set<Key>, controls: Controls): real
  {
    Command(keys, controls.forward, controls.backward, PowerForceMagnitude)
  }

  function FrontTurningCommand(keys: set<Key>, controls: Controls): real
  {
    Command(keys, controls.right, controls.left, TurningForceMagnitude)
  }

  /**
    The decision table of a command for a positive magnitude: the forward
    key wins when both are held, the backward key alone gives the negated
    magnitude, and neither gives 0; no other value is possible.
   */
  lemma CommandTable(keys: set<Key>, forward: Key, backward: Key, magnitude: real)
    requires magnitude > 0.0
    ensures var r := Command(keys, forward, backward, magnitude);
            && (r == magnitude <==> forward in keys)
            && (r == -magnitude <==> forward !in keys && backward in keys)
            && (r == 0.0 <==> forward !in keys && backward !in keys)
  {
  }

  /** The commands written to a vehicle's four levitators: front pair 0-1, rear pair 2-3. */
  function CommandedPads(pads: seq<Pad>, power: real, frontTurning: real): (r: seq<Pad>)
    requires |pads| == 4
    ensures |r| == 4
  {
    [pads[0].(powerForce := power, turningForce := frontTurning),
     pads[1].(powerForce := power, turningForce := frontTurning),
     pads[2].(powerForce := power, turningForce := -frontTurning),
     pads[3].(powerForce := power, turningForce := -frontTurning)]
  }

  /**
    The commands touch only the drive forces: anchors and radii stay, all
    four levitators get the power, the front pair the turning force and the
    rear pair its negation.
   */
  lemma CommandedPadsWrites(pads: seq<Pad>, power: real, frontTurning: real)
    requires |pads| == 4
    ensures var r := CommandedPads(pads, power, frontTurning);
            && (forall k :: 0 <= k < 4 ==> r[k].position == pads[k].position && r[k].radius == pads[k].radius)
            && (forall k :: 0 <= k < 4 ==> r[k].powerForce == power)
            && r[0].turningForce == r[1].turningForce == frontTurning
            && r[2].turningForce == r[3].turningForce == -frontTurning
  {
  }

  /**
    Steering never adds a net sideways push on its own: the four turning
    forces always sum to zero, so A/D (or Left/Right) only produce a couple
    that turns the vehicle, while the power is shared equally.
   */
  lemma TurningIsACouple(pads: seq<Pad>, keys: set<Key>, controls: Controls)
    requires |pads| == 4
    ensures var r := CommandedPads(pads, PowerCommand(keys, controls), FrontTurningCommand(keys, controls));
            && r[0].turningForce + r[1].turningForce + r[2].turningForce + r[3].turningForce == 0.0
            && r[0].powerForce == r[1].powerForce == r[2].powerForce == r[3].powerForce
  {
  }

  datatype CameraMode = Fixed | Onboard

  /** The other camera mode. */
  function Toggled(mode: CameraMode): (r: CameraMode)
    ensures r != mode
  {
    match mode
    case Fixed => Onboard
    case Onboard => Fixed
  }

  /** A release edge: held in the previous frame, up in this one. */
  predicate Released(previous: set<Key>, current: set<Key>, key: Key)
  {
    key in previous && key !in current
  }

  /** The camera mode after a run of frames, toggling on each release edge of the key. */
  function ModeAfter(mode: CameraMode, previous: set<Key>, frames: seq<set<Key>>, key: Key): CameraMode
    decreases |frames|
  {
    if frames == [] then mode
    else
      var next := if Released(previous, frames[0], key) then Toggled(mode) else mode;
      ModeAfter(next, frames[0], frames[1..], key)
  }

  /** How many release edges of the key a run of frames contains. */
  function Releases(previous: set<Key>, frames: seq<set<Key>>, key: Key): nat
    decreases |frames|
  {
    if frames == [] then 0
    else (if Released(previous, frames[0], key) then 1 else 0) + Releases(frames[0], frames[1..], key)
  }

  /**
    Holding a key does not flicker the camera: after any run of frames the
    mode has flipped exactly when the number of release edges is odd.
   */
  lemma {:induction false} ModeFollowsReleases(mode: CameraMode, previous: set<Key>, frames: seq<set<Key>>, key: Key)
    ensures ModeAfter(mode, previous, frames, key)
            == if Releases(previous, frames, key) % 2 == 0 then mode else Toggled(mode)
    decreases |frames|
  {
    if frames != [] {
      var next := if Released(previous, frames[0], key) then Toggled(mode) else mode;
      ModeFollowsReleases(next, frames[0], frames[1..], key);
    }
  }

  /** A camera: only its mode matters here; the view matrices are renderer state. */
  class Camera {
    var mode: CameraMode

    /** A new camera starts in the first mode of the enumeration. */
    constructor ()
      ensures mode == Fixed
    {
      mode := Fixed;
    }
  }

  // ---------------------------------------------------------------------------
  // Start-of-round states (ResetGame, lines 314-327)

  const Pi: real := 3.141592653589793

  /**
    The state a vehicle is reset to from five draws in [0,1): x from draw 0,
    z from draw 1 on the side given by the sign, yaw, pitch and roll from
    draws 2-4, every velocity and momentum zero, height 3.
   */
  function StartState(lib: Library, draws: seq<real>, side: real): BodyState
    requires |draws| == 5
  {
    BodyState(
      Vec3(40.0 * (2.0 * draws[0] - 1.0), 3.0, side * (10.0 + 30.0 * draws[1])),
      Zero,
      lib.yawPitchRoll(2.0 * Pi * draws[2], 0.2 * (2.0 * draws[3] - 1.0), 0.2 * (2.0 * draws[4] - 1.0)),
      Zero,
      Zero)
  }

  predicate UnitDraws(draws: seq<real>)
  {
    forall k :: 0 <= k < |draws| ==> 0.0 <= draws[k] < 1.0
  }

  /**
    For draws in [0,1) both vehicles start at rest at height 3 with x in
    [-40, 40); vehicle 0 (side 1) in z in [10, 40), vehicle 1 (side -1) in
    z in (-40, -10]: each in its own half, clear of the walls.
   */
  lemma StartInsideArena(lib: Library, draws: seq<real>)
    requires |draws| == 10 && UnitDraws(draws)
    ensures var s0 := StartState(lib, draws[..5], 1.0);
            var s1 := StartState(lib, draws[5..], -1.0);
            && s0.velocity == s1.velocity == Zero
            && s0.angularMomentum == s1.angularMomentum == Zero
            && s0.angularVelocity == s1.angularVelocity == Zero
            && s0.position.y == s1.position.y == 3.0
            && -40.0 <= s0.position.x < 40.0 && -40.0 <= s1.position.x < 40.0
            && 10.0 <= s0.position.z < 40.0 && -40.0 < s1.position.z <= -10.0
  {
    assert draws[..5][0] == draws[0] && draws[..5][1] == draws[1];
    assert draws[5..][0] == draws[5] && draws[5..][1] == draws[6];
  }

  /** No vertex within 9 units of a start position can reach a wall (the floor is 3 below). */
  lemma StartClearOfWalls(lib: Library, draws: seq<real>, p: Vec3, side: real)
    requires SignedDistance(lib)
    requires |draws| == 5 && UnitDraws(draws) && (side == 1.0 || side == -1.0)
    requires var c := StartState(lib, draws, side).position;
             -9.0 <= p.x - c.x <= 9.0 && -9.0 <= p.z - c.z <= 9.0
    ensures CollisionBias - lib.pointPlaneDistance(p, LowXWall) < 0.0
    ensures CollisionBias - lib.pointPlaneDistance(p, HighXWall) < 0.0
    ensures CollisionBias - lib.pointPlaneDistance(p, LowZWall) < 0.0
    ensures CollisionBias - lib.pointPlaneDistance(p, HighZWall) < 0.0
  {
    ArenaContactRegions(lib, p);
  }

  // ---------------------------------------------------------------------------
  // The loops of UpdatePhysics, one per contact kind (lines 221-302)

  /** The body-vertex loop for one arena boundary (lines 224-237). */
  method AddVertexContacts(lib: Library, vehicle: Vehicle, plane: Plane)
    modifies vehicle`force, vehicle`torque
    ensures Wrench(vehicle.force, vehicle.torque)
            == Plus(old(Wrench(vehicle.force, vehicle.torque)),
                    VertexSum(lib, vehicle.Value(), plane, vehicle.bodyBoundingVertices))
  {
    ghost var b := vehicle.Value();
    ghost var start := Wrench(vehicle.force, vehicle.torque);
    var vertices := vehicle.bodyBoundingVertices;
    var m := 0;
    while m < |vertices|
      invariant 0 <= m <= |vertices|
      invariant b == vehicle.Value()
      invariant Wrench(vehicle.force, vehicle.torque) == Plus(start, VertexSum(lib, b, plane, vertices[..m]))
    {
      ghost var before := Wrench(vehicle.force, vehicle.torque);
      var vertexLocalPosition := Transform(vertices[m], vehicle.state.orientation);
      var vertexPenetrationDepth := CollisionBias - lib.pointPlaneDistance(Add(vehicle.state.position, vertexLocalPosition), plane);
      assert vertexPenetrationDepth == VertexDepth(lib, b.state, plane, vertices[m]);
      if vertexPenetrationDepth >= 0.0 {
        var vertexVelocity := Add(vehicle.state.velocity, Cross(vehicle.state.angularVelocity, vertexLocalPosition));
        var vertexContactForce := Scale(vehicle.mass,
          Sub(Scale(vertexPenetrationDepth, Scale(BodyBoundingVertexReactionForceMultiplier, plane.normal)),
              Scale(BodyBoundingVertexFrictionForceMultiplier, vertexVelocity)));
        assert vertexContactForce == VertexContactForce(b, plane, vertexLocalPosition, vertexPenetrationDepth);
        vehicle.force := Add(vehicle.force, vertexContactForce);
        vehicle.torque := Add(vehicle.torque, Cross(vertexLocalPosition, vertexContactForce));
      }
      assert Wrench(vehicle.force, vehicle.torque) == Plus(before, VertexWrench(lib, b, plane, vertices[m]));
      assert vertices[..m + 1][..m] == vertices[..m];
      PlusAssociative(start, VertexSum(lib, b, plane, vertices[..m]), VertexWrench(lib, b, plane, vertices[m]));
      m := m + 1;
    }
    assert vertices[..m] == vertices;
  }

  /** A body axis projected onto the plane and normalised when its length is positive (lines 242-252). */
  method ProjectDirection(lib: Library, direction: Vec3, plane: Plane) returns (projected: Vec3)
    ensures projected == ProjectedDirection(lib, direction, plane)
  {
    projected := lib.planeProjection(direction, plane);
    if lib.length(projected) > 0.0 {
      projected := lib.normalize(projected);
    }
  }

  /** The levitator loop against the floor, with its projected drive directions (lines 240-274). */
  method AddLevitatorContacts(lib: Library, vehicle: Vehicle, plane: Plane)
    modifies vehicle`force, vehicle`torque
    ensures Wrench(vehicle.force, vehicle.torque)
            == Plus(old(Wrench(vehicle.force, vehicle.torque)), FloorWrench(lib, vehicle.Value(), plane))
  {
    ghost var b := vehicle.Value();
    ghost var start := Wrench(vehicle.force, vehicle.torque);

    var projectedForwardDirection := ProjectDirection(lib, Forward(vehicle.state.orientation), plane);
    var projectedRightDirection := ProjectDirection(lib, Right(vehicle.state.orientation), plane);

    var levitators := vehicle.levitators;
    var m := 0;
    while m < |levitators|
      invariant 0 <= m <= |levitators|
      invariant b == vehicle.Value()
      invariant Wrench(vehicle.force, vehicle.torque)
                == Plus(start, LevitatorSum(lib, b, plane, b.pads[..m], projectedForwardDirection, projectedRightDirection))
    {
      AddLevitatorContact(lib, vehicle, plane, levitators[m], projectedForwardDirection, projectedRightDirection);
      assert b.pads[..m + 1][..m] == b.pads[..m];
      PlusAssociative(start, LevitatorSum(lib, b, plane, b.pads[..m], projectedForwardDirection, projectedRightDirection),
                      LevitatorWrench(lib, b, plane, b.pads[m], projectedForwardDirection, projectedRightDirection));
      m := m + 1;
    }
    assert b.pads[..m] == b.pads;
  }

  /** The body of the levitator loop: lift, then drive, for one levitator in contact (lines 256-272). */
  method AddLevitatorContact(lib: Library, vehicle: Vehicle, plane: Plane, levitator: Levitator,
                             projectedForwardDirection: Vec3, projectedRightDirection: Vec3)
    modifies vehicle`force, vehicle`torque
    ensures Wrench(vehicle.force, vehicle.torque)
            == Plus(old(Wrench(vehicle.force, vehicle.torque)),
                    LevitatorWrench(lib, vehicle.Value(), plane, levitator.Value(), projectedForwardDirection, projectedRightDirection))
  {
    ghost var b := vehicle.Value();
    ghost var before := Wrench(vehicle.force, vehicle.torque);
    var levitatorLocalPosition := Transform(levitator.position, vehicle.state.orientation);
    var levitatorPenetrationDepth := CollisionBias
      - lib.pointPlaneDistance(Add(vehicle.state.position, levitatorLocalPosition), plane) + levitator.radius;
    assert levitatorPenetrationDepth == LevitatorDepth(lib, b.state, plane, levitator.Value());
    if levitatorPenetrationDepth >= 0.0 {
      var levitatorVelocity := Add(vehicle.state.velocity, Cross(vehicle.state.angularVelocity, levitatorLocalPosition));
      var levitatorProjectedVelocity := lib.planeProjection(levitatorVelocity, plane);
      var levitatorContactForce := Scale(vehicle.mass,
        Sub(Sub(Scale(levitatorPenetrationDepth, Scale(LevitationForceMultiplier, plane.normal)),
                Mul(Scale(VerticalFrictionForceMultiplier, Sub(levitatorVelocity, levitatorProjectedVelocity)), plane.normal)),
            Scale(LateralFrictionForceMultiplier, levitatorProjectedVelocity)));
      assert levitatorContactForce == LiftForce(lib, b, plane, levitatorLocalPosition, levitatorPenetrationDepth);
      vehicle.force := Add(vehicle.force, levitatorContactForce);
      vehicle.torque := Add(vehicle.torque, Cross(levitatorLocalPosition, levitatorContactForce));

      var levitatorDriveForce := Scale(vehicle.mass,
        Add(Scale(levitator.powerForce, projectedForwardDirection), Scale(levitator.turningForce, projectedRightDirection)));
      assert levitatorDriveForce == DriveForce(b, levitator.Value(), projectedForwardDirection, projectedRightDirection);
      PlusAssociative(before, At(levitatorLocalPosition, levitatorContactForce), At(levitatorLocalPosition, levitatorDriveForce));
      vehicle.force := Add(vehicle.force, levitatorDriveForce);
      vehicle.torque := Add(vehicle.torque, Cross(levitatorLocalPosition, levitatorDriveForce));
    }
  }

  /**
    One pass of the inner loop (lines 287-298): when the two spheres touch,
    the contact force, acting at the vehicle's sphere, is added.
   */
  method AddSpherePairContact(lib: Library, vehicle: Vehicle, other: Vehicle, boundingSphere: Sphere, otherBoundingSphere: Sphere,
                              boundingSphereLocalPosition: Vec3, boundingSphereWorldPosition: Vec3)
    requires boundingSphere.radius > 0.0 && otherBoundingSphere.radius > 0.0
    requires boundingSphereLocalPosition == Transform(boundingSphere.position, vehicle.state.orientation)
    requires boundingSphereWorldPosition == Add(vehicle.state.position, boundingSphereLocalPosition)
    modifies vehicle`force, vehicle`torque
    ensures Wrench(vehicle.force, vehicle.torque)
            == Plus(old(Wrench(vehicle.force, vehicle.torque)),
                    SphereWrench(lib, vehicle.Value(), other.Value(), boundingSphere, otherBoundingSphere))
  {
    ghost var b := vehicle.Value();
    ghost var o := other.Value();
    var otherBoundingSphereWorldPosition := Add(other.state.position, Transform(otherBoundingSphere.position, other.state.orientation));
    var boundingSphereVector := Sub(boundingSphereWorldPosition, otherBoundingSphereWorldPosition);
    assert boundingSphereVector == SphereSeparation(b, o, boundingSphere, otherBoundingSphere);
    var boundingSphereDistance := lib.length(boundingSphereVector);
    var boundingSphereTouchDistance := boundingSphere.radius + otherBoundingSphere.radius;
    if boundingSphereDistance <= boundingSphereTouchDistance {
      var boundingSphereVelocity := Add(vehicle.state.velocity, Cross(vehicle.state.angularVelocity, boundingSphereLocalPosition));
      var boundingSphereContactForce := Scale(vehicle.mass,
        Sub(Scale(1.0 - boundingSphereDistance / boundingSphereTouchDistance,
                  Scale(BodyBoundingSphereReactionForceMultiplier, lib.normalize(boundingSphereVector))),
            Scale(BodyBoundingSphereFrictionForceMultiplier, boundingSphereVelocity)));
      assert boundingSphereContactForce
             == SphereContactForce(lib, b, boundingSphereLocalPosition, boundingSphereVector, boundingSphereTouchDistance);
      vehicle.force := Add(vehicle.force, boundingSphereContactForce);
      vehicle.torque := Add(vehicle.torque, Cross(boundingSphereLocalPosition, boundingSphereContactForce));
    }
  }

  /** The inner loop: one sphere of the vehicle against every sphere of the other (lines 285-300). */
  method AddSpherePairContacts(lib: Library, vehicle: Vehicle, other: Vehicle, boundingSphere: Sphere,
                               boundingSphereLocalPosition: Vec3, boundingSphereWorldPosition: Vec3)
    requires boundingSphere.radius > 0.0 && RadiiPositive(other.bodyBoundingSpheres)
    requires boundingSphereLocalPosition == Transform(boundingSphere.position, vehicle.state.orientation)
    requires boundingSphereWorldPosition == Add(vehicle.state.position, boundingSphereLocalPosition)
    modifies vehicle`force, vehicle`torque
    ensures Wrench(vehicle.force, vehicle.torque)
            == Plus(old(Wrench(vehicle.force, vehicle.torque)),
                    SpherePairSum(lib, vehicle.Value(), other.Value(), boundingSphere, other.bodyBoundingSpheres))
  {
    ghost var b := vehicle.Value();
    ghost var o := other.Value();
    ghost var start := Wrench(vehicle.force, vehicle.torque);
    var otherSpheres := other.bodyBoundingSpheres;
    var m := 0;
    while m < |otherSpheres|
      invariant 0 <= m <= |otherSpheres|
      invariant b == vehicle.Value() && o == other.Value()
      invariant Wrench(vehicle.force, vehicle.torque) == Plus(start, SpherePairSum(lib, b, o, boundingSphere, otherSpheres[..m]))
    {
      AddSpherePairContact(lib, vehicle, other, boundingSphere, otherSpheres[m],
                           boundingSphereLocalPosition, boundingSphereWorldPosition);
      assert otherSpheres[..m + 1][..m] == otherSpheres[..m];
      PlusAssociative(start, SpherePairSum(lib, b, o, boundingSphere, otherSpheres[..m]),
                      SphereWrench(lib, b, o, boundingSphere, otherSpheres[m]));
      m := m + 1;
    }
    assert otherSpheres[..m] == otherSpheres;
  }


  /** The outer loop: every sphere of the vehicle against the other vehicle (lines 280-301). */
  method AddSphereContacts(lib: Library, vehicle: Vehicle, other: Vehicle)
    requires RadiiPositive(vehicle.bodyBoundingSpheres) && RadiiPositive(other.bodyBoundingSpheres)
    modifies vehicle`force, vehicle`torque
    ensures Wrench(vehicle.force, vehicle.torque)
            == Plus(old(Wrench(vehicle.force, vehicle.torque)),
                    SphereSum(lib, vehicle.Value(), other.Value(), vehicle.bodyBoundingSpheres))
  {
    ghost var b := vehicle.Value();
    ghost var o := other.Value();
    ghost var start := Wrench(vehicle.force, vehicle.torque);
    var spheres := vehicle.bodyBoundingSpheres;
    var m := 0;
    while m < |spheres|
      invariant 0 <= m <= |spheres|
      invariant b == vehicle.Value() && o == other.Value()
      invariant Wrench(vehicle.force, vehicle.torque) == Plus(start, SphereSum(lib, b, o, spheres[..m]))
    {
      var boundingSphere := spheres[m];
      var boundingSphereLocalPosition := Transform(boundingSphere.position, vehicle.state.orientation);
      var boundingSphereWorldPosition := Add(vehicle.state.position, boundingSphereLocalPosition);
      AddSpherePairContacts(lib, vehicle, other, boundingSphere, boundingSphereLocalPosition, boundingSphereWorldPosition);
      assert spheres[..m + 1][..m] == spheres[..m];
      PlusAssociative(start, SphereSum(lib, b, o, spheres[..m]), SpherePairSum(lib, b, o, boundingSphere, o.spheres));
      m := m + 1;
    }
    assert spheres[..m] == spheres;
  }

  /** The arena loop (lines 221-275): every boundary's vertex contacts, then levitators on the first boundary. */
  method AddArenaContacts(lib: Library, vehicle: Vehicle, planes: seq<Plane>)
    modifies vehicle`force, vehicle`torque
    ensures Wrench(vehicle.force, vehicle.torque)
            == Plus(old(Wrench(vehicle.force, vehicle.torque)), ArenaSum(lib, vehicle.Value(), planes, |planes|))
  {
    ghost var b := vehicle.Value();
    ghost var start := Wrench(vehicle.force, vehicle.torque);
    var p := 0;
    while p < |planes|
      invariant 0 <= p <= |planes|
      invariant b == vehicle.Value()
      invariant Wrench(vehicle.force, vehicle.torque) == Plus(start, ArenaSum(lib, b, planes, p))
    {
      AddBoundaryContacts(lib, vehicle, planes, p);
      PlusAssociative(start, ArenaSum(lib, b, planes, p), BoundaryWrench(lib, b, planes, p));
      p := p + 1;
    }
  }

  /** One pass of the arena loop: the vertex contacts with boundary p, then the levitators if it is the first. */
  method AddBoundaryContacts(lib: Library, vehicle: Vehicle, planes: seq<Plane>, p: nat)
    requires p < |planes|
    modifies vehicle`force, vehicle`torque
    ensures Wrench(vehicle.force, vehicle.torque)
            == Plus(old(Wrench(vehicle.force, vehicle.torque)), BoundaryWrench(lib, vehicle.Value(), planes, p))
  {
    ghost var b := vehicle.Value();
    ghost var before := Wrench(vehicle.force, vehicle.torque);
    var arenaBoundary := planes[p];
    AddVertexContacts(lib, vehicle, arenaBoundary);
    ghost var vertices := VertexSum(lib, b, arenaBoundary, b.vertices);
    if IndexOf(planes, arenaBoundary) == 0 {
      AddLevitatorContacts(lib, vehicle, arenaBoundary);
      PlusAssociative(before, vertices, FloorWrench(lib, b, arenaBoundary));
    }
  }

  /**
    The loop over the other vehicles (lines 278-302): the sphere contacts of
    this vehicle with every vehicle but itself, against the bodies given.
   */
  method AddBodyContacts(lib: Library, vehicles: seq<Vehicle>, i: nat, ghost bodies: seq<Body>)
    requires i < |vehicles| == |bodies|
    requires forall k :: 0 <= k < |vehicles| ==> vehicles[k].Value() == bodies[k]
    requires forall k :: 0 <= k < |vehicles| && k != i ==> vehicles[k] != vehicles[i]
    requires AllPositiveRadii(bodies)
    modifies {vehicles[i]}`force, {vehicles[i]}`torque
    ensures forall k :: 0 <= k < |vehicles| ==> vehicles[k].Value() == bodies[k]
    ensures Wrench(vehicles[i].force, vehicles[i].torque)
            == Plus(old(Wrench(vehicles[i].force, vehicles[i].torque)), BodyContactSum(lib, bodies[i], bodies, i, |bodies|))
  {
    ghost var start := Wrench(vehicles[i].force, vehicles[i].torque);
    var j := 0;
    while j < |vehicles|
      invariant 0 <= j <= |vehicles|
      invariant forall k :: 0 <= k < |vehicles| ==> vehicles[k].Value() == bodies[k]
      invariant Wrench(vehicles[i].force, vehicles[i].torque) == Plus(start, BodyContactSum(lib, bodies[i], bodies, i, j))
    {
      AddVehicleContacts(lib, vehicles, i, j, bodies, start);
      j := j + 1;
    }
  }

  /**
    One pass of the loop over the vehicles: nothing for the vehicle itself,
    its sphere contacts for any other, extending the running sum by vehicle j.
   */
  method AddVehicleContacts(lib: Library, vehicles: seq<Vehicle>, i: nat, j: nat, ghost bodies: seq<Body>, ghost start: Wrench)
    requires i < |vehicles| == |bodies| && j < |vehicles|
    requires forall k :: 0 <= k < |vehicles| ==> vehicles[k].Value() == bodies[k]
    requires forall k :: 0 <= k < |vehicles| && k != i ==> vehicles[k] != vehicles[i]
    requires AllPositiveRadii(bodies)
    requires Wrench(vehicles[i].force, vehicles[i].torque) == Plus(start, BodyContactSum(lib, bodies[i], bodies, i, j))
    modifies {vehicles[i]}`force, {vehicles[i]}`torque
    ensures forall k :: 0 <= k < |vehicles| ==> vehicles[k].Value() == bodies[k]
    ensures Wrench(vehicles[i].force, vehicles[i].torque) == Plus(start, BodyContactSum(lib, bodies[i], bodies, i, j + 1))
  {
    var vehicle := vehicles[i];
    var otherVehicle := vehicles[j];
    if otherVehicle != vehicle {
      AddSphereContacts(lib, vehicle, otherVehicle);
    }
    PlusAssociative(start, BodyContactSum(lib, bodies[i], bodies, i, j),
                    if j == i then NoWrench else SphereSum(lib, bodies[i], bodies[j], bodies[i].spheres));
  }

  /** `Force = Vector3.Zero; Torque = Vector3.Zero;` (lines 218-219), leaving every body as it was. */
  method ResetAccumulators(vehicles: seq<Vehicle>, i: nat, ghost bodies: seq<Body>)
    requires i < |vehicles| == |bodies|
    requires forall k :: 0 <= k < |vehicles| ==> vehicles[k].Value() == bodies[k]
    modifies {vehicles[i]}`force, {vehicles[i]}`torque
    ensures forall k :: 0 <= k < |vehicles| ==> vehicles[k].Value() == bodies[k]
    ensures Wrench(vehicles[i].force, vehicles[i].torque) == NoWrench
  {
    var vehicle := vehicles[i];
    vehicle.force := Zero;
    vehicle.torque := Zero;
  }

  /** The arena loop for vehicle i, leaving every body as it was. */
  method AddArenaContactsOf(lib: Library, vehicles: seq<Vehicle>, i: nat, planes: seq<Plane>, ghost bodies: seq<Body>)
    requires i < |vehicles| == |bodies|
    requires forall k :: 0 <= k < |vehicles| ==> vehicles[k].Value() == bodies[k]
    modifies {vehicles[i]}`force, {vehicles[i]}`torque
    ensures forall k :: 0 <= k < |vehicles| ==> vehicles[k].Value() == bodies[k]
    ensures Wrench(vehicles[i].force, vehicles[i].torque)
            == Plus(old(Wrench(vehicles[i].force, vehicles[i].torque)), ArenaSum(lib, bodies[i], planes, |planes|))
  {
    AddArenaContacts(lib, vehicles[i], planes);
  }

  /** `Force += Mass*gravity` (line 304): gravity acts at the centre of mass, so the torque is untouched. */
  method AddGravity(vehicles: seq<Vehicle>, i: nat, gravity: Vec3, ghost bodies: seq<Body>)
    requires i < |vehicles| == |bodies|
    requires forall k :: 0 <= k < |vehicles| ==> vehicles[k].Value() == bodies[k]
    modifies {vehicles[i]}`force
    ensures forall k :: 0 <= k < |vehicles| ==> vehicles[k].Value() == bodies[k]
    ensures Wrench(vehicles[i].force, vehicles[i].torque)
            == Plus(old(Wrench(vehicles[i].force, vehicles[i].torque)), GravityWrench(bodies[i], gravity))
  {
    var vehicle := vehicles[i];
    vehicle.force := Add(vehicle.force, Scale(vehicle.mass, gravity));
  }

  /** What the force computation reads from each of the vehicles, in order. */
  function BodiesOf(vehicles: seq<Vehicle>): (r: seq<Body>)
    reads set v | v in vehicles :: v.state
    reads set v, l | v in vehicles && l in v.levitators :: l
    ensures |r| == |vehicles|
    ensures (forall k :: 0 <= k < |vehicles| ==> RadiiPositive(vehicles[k].bodyBoundingSpheres)) ==> AllPositiveRadii(r)
  {
    seq(|vehicles|, k requires 0 <= k < |vehicles|
                      reads if 0 <= k < |vehicles| then {vehicles[k].state} + (set l: object | l in vehicles[k].levitators) else {}
                      => vehicles[k].Value())
  }

  /**
    The force accumulation for vehicle i (lines 216-304): reset, arena
    boundaries, every other vehicle, then gravity, all against the bodies
    given. Only this vehicle's Force and Torque change.
   */
  method AccumulateForces(lib: Library, vehicles: seq<Vehicle>, i: nat, planes: seq<Plane>, gravity: Vec3,
                          ghost bodies: seq<Body>)
    requires i < |vehicles| == |bodies|
    requires forall k :: 0 <= k < |vehicles| ==> vehicles[k].Value() == bodies[k]
    requires forall k :: 0 <= k < |vehicles| && k != i ==> vehicles[k] != vehicles[i]
    requires AllPositiveRadii(bodies)
    modifies {vehicles[i]}`force, {vehicles[i]}`torque
    ensures forall k :: 0 <= k < |vehicles| ==> vehicles[k].Value() == bodies[k]
    ensures Wrench(vehicles[i].force, vehicles[i].torque) == Accumulated(lib, bodies, planes, gravity, i)
  {
    ResetAccumulators(vehicles, i, bodies);
    AddArenaContactsOf(lib, vehicles, i, planes, bodies);
    AddBodyContacts(lib, vehicles, i, bodies);
    AddGravity(vehicles, i, gravity, bodies);
  }

  /** The first loop of UpdatePhysics (lines 213-305): every vehicle accumulates against the same bodies. */
  method AccumulateAll(lib: Library, vehicles: seq<Vehicle>, planes: seq<Plane>, gravity: Vec3, ghost bodies: seq<Body>)
    requires |vehicles| == |bodies|
    requires forall k :: 0 <= k < |vehicles| ==> vehicles[k].Value() == bodies[k]
    requires forall j, k :: 0 <= j < k < |vehicles| ==> vehicles[j] != vehicles[k]
    requires AllPositiveRadii(bodies)
    modifies (set v | v in vehicles)`force, (set v | v in vehicles)`torque
    ensures forall k :: 0 <= k < |vehicles| ==> Wrench(vehicles[k].force, vehicles[k].torque) == Accumulated(lib, bodies, planes, gravity, k)
  {
    var i := 0;
    while i < |vehicles|
      invariant 0 <= i <= |vehicles|
      invariant forall k :: 0 <= k < |vehicles| ==> vehicles[k].Value() == bodies[k]
      invariant forall k :: 0 <= k < i ==> Wrench(vehicles[k].force, vehicles[k].torque) == Accumulated(lib, bodies, planes, gravity, k)
    {
      AccumulateForces(lib, vehicles, i, planes, gravity, bodies);
      i := i + 1;
    }
  }

  /** The second loop of UpdatePhysics (lines 308-311): every vehicle takes one step with its own accumulated wrench. */
  method IntegrateAll(lib: Library, vehicles: seq<Vehicle>, timeDelta: real)
    requires forall j, k :: 0 <= j < k < |vehicles| ==> vehicles[j].state != vehicles[k].state
    requires forall k :: 0 <= k < |vehicles| ==> vehicles[k].mass != 0.0
    modifies set v | v in vehicles :: v.state
    ensures forall k :: 0 <= k < |vehicles| ==>
              vehicles[k].state.Value()
              == Integrate(lib, old(vehicles[k].state.Value()), vehicles[k].force, vehicles[k].torque,
                           vehicles[k].mass, vehicles[k].inverseBodyInertiaTensor, timeDelta)
    ensures forall k :: 0 <= k < |vehicles| ==> PadsOf(vehicles[k].levitators) == old(PadsOf(vehicles[k].levitators))
  {
    var k := 0;
    while k < |vehicles|
      invariant 0 <= k <= |vehicles|
      invariant forall n :: 0 <= n < k ==>
                  vehicles[n].state.Value()
                  == Integrate(lib, old(vehicles[n].state.Value()), vehicles[n].force, vehicles[n].torque,
                               vehicles[n].mass, vehicles[n].inverseBodyInertiaTensor, timeDelta)
      invariant forall n :: k <= n < |vehicles| ==> vehicles[n].state.Value() == old(vehicles[n].state.Value())
      invariant forall n :: 0 <= n < |vehicles| ==> PadsOf(vehicles[n].levitators) == old(PadsOf(vehicles[n].levitators))
    {
      vehicles[k].ApplyPhysics(lib, timeDelta);
      k := k + 1;
    }
  }

  /** Vehicles whose values are the given bodies, one by one, are those bodies. */
  lemma SameBodies(vehicles: seq<Vehicle>, bodies: seq<Body>)
    requires |vehicles| == |bodies|
    requires forall k :: 0 <= k < |vehicles| ==> vehicles[k].Value() == bodies[k]
    ensures BodiesOf(vehicles) == bodies
  {
    var now := BodiesOf(vehicles);
    assert |now| == |bodies|;
    assert forall k :: 0 <= k < |now| ==> now[k] == bodies[k];
  }

  // ---------------------------------------------------------------------------
  // What Update does before the physics step (lines 483-540)

  /** A body with its four levitators commanded from the keyboard through the given controls. */
  function Commanded(b: Body, keys: set<Key>, controls: Controls): Body
    requires |b.pads| == 4
  {
    b.(pads := CommandedPads(b.pads, PowerCommand(keys, controls), FrontTurningCommand(keys, controls)))
  }

  /** Both bodies after the keyboard commands: red through W/S/A/D, yellow through the arrow keys. */
  function CommandedBodies(bodies: seq<Body>, keys: set<Key>): (r: seq<Body>)
    requires |bodies| == 2 && |bodies[0].pads| == 4 && |bodies[1].pads| == 4
  {
    [Commanded(bodies[0], keys, RedControls), Commanded(bodies[1], keys, YellowControls)]
  }

  /** Both bodies after ResetGame: red from draws 0-4 on the positive side, yellow from draws 5-9 on the negative side. */
  function RestartedBodies(lib: Library, bodies: seq<Body>, draws: seq<real>): (r: seq<Body>)
    requires |bodies| == 2 && |draws| == 10
  {
    [bodies[0].(state := StartState(lib, draws[..5], 1.0)), bodies[1].(state := StartState(lib, draws[5..], -1.0))]
  }

  /**
    The two bodies UpdatePhysics sees in a frame: both vehicles commanded
    from the keyboard, then both states replaced by their start states when
    Space was released in this frame.
   */
  function FrameBodies(lib: Library, bodies: seq<Body>, previous: set<Key>, keys: set<Key>, draws: seq<real>): (r: seq<Body>)
    requires |bodies| == 2 && |bodies[0].pads| == 4 && |bodies[1].pads| == 4 && |draws| == 10
    ensures |r| == 2
    ensures AllPositiveRadii(bodies) ==> AllPositiveRadii(r)
  {
    var commanded := CommandedBodies(bodies, keys);
    if Released(previous, keys, Space) then RestartedBodies(lib, commanded, draws) else commanded
  }

  /**
    A frame changes only the drive commands and, on a released Space, the
    states: masses, inertia, contact geometry and levitator anchors stay.
   */
  lemma FrameKeepsGeometry(lib: Library, bodies: seq<Body>, previous: set<Key>, keys: set<Key>, draws: seq<real>)
    requires |bodies| == 2 && |bodies[0].pads| == 4 && |bodies[1].pads| == 4 && |draws| == 10
    ensures var r := FrameBodies(lib, bodies, previous, keys, draws);
            forall k :: 0 <= k < 2 ==>
              && r[k].mass == bodies[k].mass
              && r[k].inverseBodyInertiaTensor == bodies[k].inverseBodyInertiaTensor
              && r[k].vertices == bodies[k].vertices
              && r[k].spheres == bodies[k].spheres
              && |r[k].pads| == 4
              && (forall m :: 0 <= m < 4 ==>
                    r[k].pads[m].position == bodies[k].pads[m].position && r[k].pads[m].radius == bodies[k].pads[m].radius)
  {
    CommandedPadsWrites(bodies[0].pads, PowerCommand(keys, RedControls), FrontTurningCommand(keys, RedControls));
    CommandedPadsWrites(bodies[1].pads, PowerCommand(keys, YellowControls), FrontTurningCommand(keys, YellowControls));
  }

  /** Without a released Space the states go into the physics step unchanged; with one, both are start states. */
  lemma FrameStates(lib: Library, bodies: seq<Body>, previous: set<Key>, keys: set<Key>, draws: seq<real>)
    requires |bodies| == 2 && |bodies[0].pads| == 4 && |bodies[1].pads| == 4 && |draws| == 10
    ensures var r := FrameBodies(lib, bodies, previous, keys, draws);
            && (!Released(previous, keys, Space) ==> r[0].state == bodies[0].state && r[1].state == bodies[1].state)
            && (Released(previous, keys, Space) ==>
                  r[0].state == StartState(lib, draws[..5], 1.0) && r[1].state == StartState(lib, draws[5..], -1.0))
  {
  }

  /**
    After a frame in which Space was released, both vehicles enter the
    physics step at rest, at height 3, each in its own half of the arena.
   */
  lemma ResetFrameAtRest(lib: Library, bodies: seq<Body>, previous: set<Key>, keys: set<Key>, draws: seq<real>)
    requires |bodies| == 2 && |bodies[0].pads| == 4 && |bodies[1].pads| == 4 && |draws| == 10 && UnitDraws(draws)
    requires Released(previous, keys, Space)
    ensures var r := FrameBodies(lib, bodies, previous, keys, draws);
            && r[0].state.velocity == r[1].state.velocity == Zero
            && r[0].state.angularMomentum == r[1].state.angularMomentum == Zero
            && r[0].state.position.y == r[1].state.position.y == 3.0
            && 10.0 <= r[0].state.position.z < 40.0 && -40.0 < r[1].state.position.z <= -10.0
  {
    StartInsideArena(lib, draws);
  }

  /**
    With no driving key held, every levitator's drive commands are zero, so
    the hovercraft only hovers.
   */
  lemma IdleFrameDoesNotDrive(lib: Library, bodies: seq<Body>, previous: set<Key>, keys: set<Key>, draws: seq<real>)
    requires |bodies| == 2 && |bodies[0].pads| == 4 && |bodies[1].pads| == 4 && |draws| == 10
    requires W !in keys && S !in keys && A !in keys && D !in keys
    requires UpArrow !in keys && DownArrow !in keys && LeftArrow !in keys && RightArrow !in keys
    ensures var r := FrameBodies(lib, bodies, previous, keys, draws);
            forall k, m :: 0 <= k < 2 && 0 <= m < 4 ==> r[k].pads[m].powerForce == 0.0 && r[k].pads[m].turningForce == 0.0
  {
  }

  /** The eight writes of Update for one vehicle: the same power on all four levitators, the turning force negated at the rear. */
  method CommandLevitators(vehicle: Vehicle, power: real, frontTurning: real)
    requires |vehicle.levitators| == 4 && DistinctObjects(vehicle.levitators)
    modifies vehicle.levitators
    ensures PadsOf(vehicle.levitators) == CommandedPads(old(PadsOf(vehicle.levitators)), power, frontTurning)
  {
    var levitators := vehicle.levitators;
    var rearTurning := -frontTurning;
    levitators[0].powerForce := power;
    levitators[0].turningForce := frontTurning;
    levitators[1].powerForce := power;
    levitators[1].turningForce := frontTurning;
    levitators[2].powerForce := power;
    levitators[2].turningForce := rearTurning;
    levitators[3].powerForce := power;
    levitators[3].turningForce := rearTurning;
  }

  /** The camera switch of Update: the mode flips when the key was released in this frame. */
  method ToggleOnRelease(camera: Camera, previous: set<Key>, current: set<Key>, key: Key)
    modifies camera`mode
    ensures camera.mode == if Released(previous, current, key) then Toggled(old(camera.mode)) else old(camera.mode)
  {
    if key in previous && key !in current {
      match camera.mode
      case Fixed => camera.mode := Onboard;
      case Onboard => camera.mode := Fixed;
    }
  }

  /** No levitator object sits twice in one array. */
  predicate DistinctObjects(levitators: seq<Levitator>)
  {
    forall j, k :: 0 <= j < k < |levitators| ==> levitators[j] != levitators[k]
  }

  /** No levitator object belongs to both arrays. */
  predicate Disjoint(a: seq<Levitator>, b: seq<Levitator>)
  {
    forall l :: l in a ==> l !in b
  }

  /** Update's levitator writes for both vehicles (lines 483-507): nothing but the drive commands changes. */
  method CommandVehicles(red: Vehicle, yellow: Vehicle, keys: set<Key>)
    requires |red.levitators| == 4 && |yellow.levitators| == 4
    requires DistinctObjects(red.levitators) && DistinctObjects(yellow.levitators)
    requires Disjoint(red.levitators, yellow.levitators)
    modifies red.levitators, yellow.levitators
    ensures PadsOf(red.levitators)
            == CommandedPads(old(PadsOf(red.levitators)), PowerCommand(keys, RedControls), FrontTurningCommand(keys, RedControls))
    ensures PadsOf(yellow.levitators)
            == CommandedPads(old(PadsOf(yellow.levitators)), PowerCommand(keys, YellowControls), FrontTurningCommand(keys, YellowControls))
  {
    var redLevitators := red.levitators;
    CommandLevitators(red, PowerCommand(keys, RedControls), FrontTurningCommand(keys, RedControls));
    ghost var redPads := PadsOf(redLevitators);
    CommandLevitators(yellow, PowerCommand(keys, YellowControls), FrontTurningCommand(keys, YellowControls));
    assert forall m :: 0 <= m < 4 ==> redLevitators[m] !in yellow.levitators;
    assert PadsOf(redLevitators) == redPads;
  }

  // ---------------------------------------------------------------------------
  // The game

  /** The frame time UpdatePhysics receives: the elapsed milliseconds as seconds. */
  function Seconds(milliseconds: int): real
  {
    milliseconds as real / 1000.0
  }

  class Game {
    const vehicles: seq<Vehicle>
    const arenaBoundaries: seq<Plane>
    const gravity: Vec3
    const cameras: seq<Camera>
    var oldKeyboardState: set<Key>

    /**
      The assignments of Initialize that the physics and Update depend on:
      the cameras, the vehicles, the arena boundaries, gravity and the
      keyboard state read at start-up; Initialize below adds the closing
      ResetGame. Building the vehicles' geometry and
      the renderer's resources is not part of this model.
     */
    constructor (vehicles: seq<Vehicle>, cameras: seq<Camera>, arenaBoundaries: seq<Plane>, gravity: Vec3,
                 keyboardState: set<Key>)
      ensures this.vehicles == vehicles && this.cameras == cameras
      ensures this.arenaBoundaries == arenaBoundaries && this.gravity == gravity
      ensures oldKeyboardState == keyboardState
    {
      this.vehicles := vehicles;
      this.cameras := cameras;
      this.arenaBoundaries := arenaBoundaries;
      this.gravity := gravity;
      oldKeyboardState := keyboardState;
    }

    /**
      What the physics step needs: distinct vehicles with distinct state
      objects, non-zero masses and positive sphere radii.
     */
    predicate PhysicsReady()
    {
      (forall j, k :: 0 <= j < k < |vehicles| ==> vehicles[j] != vehicles[k] && vehicles[j].state != vehicles[k].state)
      && (forall k :: 0 <= k < |vehicles| ==> vehicles[k].mass != 0.0 && RadiiPositive(vehicles[k].bodyBoundingSpheres))
    }

    /**
      The configuration Initialize builds: two physics-ready vehicles with
      four levitators each, no levitator object shared, two distinct
      cameras.
     */
    predicate Valid()
    {
      && PhysicsReady()
      && |vehicles| == 2 && |cameras| == 2 && cameras[0] != cameras[1]
      && |vehicles[0].levitators| == 4 && |vehicles[1].levitators| == 4
      && DistinctObjects(vehicles[0].levitators) && DistinctObjects(vehicles[1].levitators)
      && Disjoint(vehicles[0].levitators, vehicles[1].levitators)
    }

    /**
      UpdatePhysics (lines 213-312): every vehicle's Force and Torque are
      accumulated from the states of the frame before any vehicle moves;
      then each vehicle takes one integration step with the same time
      delta. Only the force and torque accumulators and the state objects
      change.
     */
    method UpdatePhysics(lib: Library, timeDelta: real, ghost bodies: seq<Body>)
      requires PhysicsReady() && BodiesOf(vehicles) == bodies
      modifies (set v | v in vehicles)`force, (set v | v in vehicles)`torque, set v | v in vehicles :: v.state
      ensures forall k :: 0 <= k < |vehicles| ==>
                Wrench(vehicles[k].force, vehicles[k].torque) == Accumulated(lib, bodies, arenaBoundaries, gravity, k)
      ensures forall k :: 0 <= k < |vehicles| ==>
                vehicles[k].state.Value()
                == Integrate(lib, bodies[k].state, vehicles[k].force, vehicles[k].torque,
                             vehicles[k].mass, vehicles[k].inverseBodyInertiaTensor, timeDelta)
      ensures forall k :: 0 <= k < |vehicles| ==> PadsOf(vehicles[k].levitators) == bodies[k].pads
    {
      AccumulateAll(lib, vehicles, arenaBoundaries, gravity, bodies);
      IntegrateAll(lib, vehicles, timeDelta);
    }

    /**
      ResetGame (lines 314-327): both state objects are set to their start
      states; the ten draws stand for the ten NextDouble calls, in order.
     */
    method ResetGame(lib: Library, draws: seq<real>)
      requires |vehicles| == 2 && vehicles[0].state != vehicles[1].state && |draws| == 10
      modifies vehicles[0].state, vehicles[1].state
      ensures vehicles[0].state.Value() == StartState(lib, draws[..5], 1.0)
      ensures vehicles[1].state.Value() == StartState(lib, draws[5..], -1.0)
    {
      var red := vehicles[0].state;
      red.position := Vec3(40.0 * (2.0 * draws[0] - 1.0), 3.0, 10.0 + 30.0 * draws[1]);
      red.velocity := Zero;
      red.orientation := lib.yawPitchRoll(2.0 * Pi * draws[2], 0.2 * (2.0 * draws[3] - 1.0), 0.2 * (2.0 * draws[4] - 1.0));
      red.angularMomentum := Zero;
      red.angularVelocity := Zero;

      var yellow := vehicles[1].state;
      yellow.position := Vec3(40.0 * (2.0 * draws[5] - 1.0), 3.0, -(10.0 + 30.0 * draws[6]));
      yellow.velocity := Zero;
      yellow.orientation := lib.yawPitchRoll(2.0 * Pi * draws[7], 0.2 * (2.0 * draws[8] - 1.0), 0.2 * (2.0 * draws[9] - 1.0));
      yellow.angularMomentum := Zero;
      yellow.angularVelocity := Zero;
    }

    /**
      Initialize (lines 347-440) as far as the physics sees it: the game
      stores the vehicles, the cameras and the start-up keyboard state, takes
      the arena's five boundaries and its gravity, and ends with ResetGame,
      so the round starts with both vehicles at their drawn start states.
     */
    static method Initialize(lib: Library, vehicles: seq<Vehicle>, cameras: seq<Camera>, keyboardState: set<Key>,
                             draws: seq<real>) returns (g: Game)
      requires |vehicles| == 2 && vehicles[0].state != vehicles[1].state && |draws| == 10
      modifies vehicles[0].state, vehicles[1].state
      ensures fresh(g)
      ensures g.vehicles == vehicles && g.cameras == cameras && g.oldKeyboardState == keyboardState
      ensures g.arenaBoundaries == ArenaBoundaries && g.gravity == Gravity
      ensures vehicles[0].state.Value() == StartState(lib, draws[..5], 1.0)
      ensures vehicles[1].state.Value() == StartState(lib, draws[5..], -1.0)
    {
      g := new Game(vehicles, cameras, ArenaBoundaries, Gravity, keyboardState);
      g.ResetGame(lib, draws);
    }

    /** The keyboard commands of Update (lines 483-507), on the two vehicles' levitators. */
    method CommandFromKeyboard(keys: set<Key>)
      requires Valid()
      modifies vehicles[0].levitators, vehicles[1].levitators
      ensures BodiesOf(vehicles) == CommandedBodies(old(BodiesOf(vehicles)), keys)
    {
      ghost var commanded := CommandedBodies(BodiesOf(vehicles), keys);
      CommandVehicles(vehicles[0], vehicles[1], keys);
      SameBodies(vehicles, commanded);
    }

    /** The camera switches of Update (lines 509-535): C switches the red camera, N the yellow one, on release. */
    method SwitchCameras(previous: set<Key>, current: set<Key>)
      requires Valid()
      modifies {cameras[0], cameras[1]}`mode
      ensures cameras[0].mode == if Released(previous, current, C) then Toggled(old(cameras[0].mode)) else old(cameras[0].mode)
      ensures cameras[1].mode == if Released(previous, current, N) then Toggled(old(cameras[1].mode)) else old(cameras[1].mode)
      ensures BodiesOf(vehicles) == old(BodiesOf(vehicles))
    {
      ToggleOnRelease(cameras[0], previous, current, C);
      ToggleOnRelease(cameras[1], previous, current, N);
    }

    /** The round reset of Update (lines 537-540): ResetGame runs when Space is released. */
    method ResetOnRelease(lib: Library, previous: set<Key>, current: set<Key>, draws: seq<real>)
      requires Valid() && |draws| == 10
      modifies vehicles[0].state, vehicles[1].state
      ensures BodiesOf(vehicles)
              == if Released(previous, current, Space) then RestartedBodies(lib, old(BodiesOf(vehicles)), draws) else old(BodiesOf(vehicles))
    {
      if Space in previous && Space !in current {
        ghost var restarted := RestartedBodies(lib, BodiesOf(vehicles), draws);
        ResetGame(lib, draws);
        SameBodies(vehicles, restarted);
      }
    }

    /**
      The part of Update before the physics step (lines 483-540): the
      keyboard commands the levitators, released C and N keys switch the
      cameras and a released Space resets the round. Afterwards the bodies
      are the frame bodies of the keyboard change.
     */
    method BeginFrame(lib: Library, previous: set<Key>, newKeyboardState: set<Key>, draws: seq<real>)
      requires Valid() && |draws| == 10
      modifies {cameras[0], cameras[1]}`mode, vehicles[0].levitators, vehicles[1].levitators
      modifies vehicles[0].state, vehicles[1].state
      ensures cameras[0].mode
              == if Released(previous, newKeyboardState, C) then Toggled(old(cameras[0].mode)) else old(cameras[0].mode)
      ensures cameras[1].mode
              == if Released(previous, newKeyboardState, N) then Toggled(old(cameras[1].mode)) else old(cameras[1].mode)
      ensures BodiesOf(vehicles) == FrameBodies(lib, old(BodiesOf(vehicles)), previous, newKeyboardState, draws)
    {
      CommandFromKeyboard(newKeyboardState);
      SwitchCameras(previous, newKeyboardState);
      ResetOnRelease(lib, previous, newKeyboardState, draws);
    }

    /**
      The outcome of a frame whose bodies, going into the physics step, were
      the given ones: the levitators carry the frame's drive commands, each
      vehicle's Force and Torque are what the accumulation computes from the
      frame bodies, and each state has taken one step with that wrench.
     */
    predicate Advanced(lib: Library, frame: seq<Body>, timeDelta: real)
      requires Valid() && |frame| == 2 && AllPositiveRadii(frame)
      reads vehicles[0], vehicles[1], vehicles[0].state, vehicles[1].state, vehicles[0].levitators, vehicles[1].levitators
    {
      && PadsOf(vehicles[0].levitators) == frame[0].pads && PadsOf(vehicles[1].levitators) == frame[1].pads
      && (forall k :: 0 <= k < 2 ==>
            && Wrench(vehicles[k].force, vehicles[k].torque) == Accumulated(lib, frame, arenaBoundaries, gravity, k)
            && vehicles[k].state.Value()
               == Integrate(lib, frame[k].state, vehicles[k].force, vehicles[k].torque,
                            vehicles[k].mass, vehicles[k].inverseBodyInertiaTensor, timeDelta))
    }

    /**
      Lines 481-542 of Update: the frame begins as BeginFrame says, then the
      physics advances by the time delta from the frame bodies, which are
      given.
     */
    method Step(lib: Library, previous: set<Key>, newKeyboardState: set<Key>, timeDelta: real, draws: seq<real>, ghost frame: seq<Body>)
      requires Valid() && |draws| == 10
      requires frame == FrameBodies(lib, BodiesOf(vehicles), previous, newKeyboardState, draws)
      modifies cameras[0], cameras[1], vehicles[0], vehicles[1], vehicles[0].state, vehicles[1].state
      modifies vehicles[0].levitators, vehicles[1].levitators
      ensures cameras[0].mode
              == if Released(previous, newKeyboardState, C) then Toggled(old(cameras[0].mode)) else old(cameras[0].mode)
      ensures cameras[1].mode
              == if Released(previous, newKeyboardState, N) then Toggled(old(cameras[1].mode)) else old(cameras[1].mode)
      ensures Advanced(lib, frame, timeDelta)
    {
      BeginFrame(lib, previous, newKeyboardState, draws);
      UpdatePhysics(lib, timeDelta, frame);
    }

    /**
      Update (lines 481-547) without the cameras' view matrices: the frame
      step with the frame's milliseconds as seconds, and the keyboard state
      kept as the previous one for the next frame. The model stores it
      before the step rather than after it; the step is handed the previous
      state instead, and nothing in between reads the field.
     */
    method Update(lib: Library, newKeyboardState: set<Key>, elapsedMilliseconds: int, draws: seq<real>)
      requires Valid() && |draws| == 10
      modifies this, cameras[0], cameras[1], vehicles[0], vehicles[1], vehicles[0].state, vehicles[1].state
      modifies vehicles[0].levitators, vehicles[1].levitators
      ensures oldKeyboardState == newKeyboardState
      ensures cameras[0].mode
              == if Released(old(oldKeyboardState), newKeyboardState, C) then Toggled(old(cameras[0].mode)) else old(cameras[0].mode)
      ensures cameras[1].mode
              == if Released(old(oldKeyboardState), newKeyboardState, N) then Toggled(old(cameras[1].mode)) else old(cameras[1].mode)
      ensures Advanced(lib, FrameBodies(lib, old(BodiesOf(vehicles)), old(oldKeyboardState), newKeyboardState, draws),
                       Seconds(elapsedMilliseconds))
    {
      var previous := oldKeyboardState;
      ghost var frame := FrameBodies(lib, BodiesOf(vehicles), previous, newKeyboardState, draws);
      oldKeyboardState := newKeyboardState;
      Step(lib, previous, newKeyboardState, Seconds(elapsedMilliseconds), draws, frame);
    }
  }
}
