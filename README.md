# Bazookoids hovercraft physics in Dafny

Bazookoids is a two-player arena game. Each player drives a hovercraft that floats on four levitators. Once per frame the game does the following:

1. It reads the keyboard. The keys set each levitator's power and turning force, switch a player's camera, or restart the round.
2. It runs `UpdatePhysics`. This accumulates a force and a torque for every vehicle against the state of the frame:
   - penalty forces for the body's corner vertices against the five arena planes;
   - lift and drive for the levitators, against the floor only;
   - sphere-sphere contact forces against the other vehicle;
   - gravity.
3. Only after every vehicle has been accumulated does each vehicle take one semi-implicit Euler step (`Vehicle.ApplyPhysics`).

This project models that frame in Dafny and proves what it does.

- **Modules:**
  - `Geometry`: the XNA vector, matrix and plane arithmetic over exact reals, plus the `Library` bundle described below.
  - `Spheres`: `Sphere` and `GenerateBox`.
  - `RigidBody`: the rigid-body state and the integration step as a function.
  - `Levitators`, `Vehicles`: the Levitator and Vehicle classes.
  - `LegacyVehicles`: the older copy of Vehicle.
  - `Contacts`: what each contact contributes, as functions over values.
  - `Arena`: the five planes and the gravity vector built by `Initialize`, and what they mean for the contacts.
  - `Game`: the key table, the camera toggles, the start states, the loops of `UpdatePhysics`, and the `Game` class holding `UpdatePhysics`, `ResetGame` and `Update`.
- **Imperative code stays imperative.** Code that changes objects in the source is imperative here.
  - Vehicles, levitators, state objects and cameras are classes whose methods update fields.
  - Every `foreach` of `UpdatePhysics` is a `while` loop. Its invariant ties the running Force/Torque to a sum over the prefix already visited.
  - Each method's postcondition says that the new state equals a specification function of the old state. The `Contacts` and `Game` lemmas prove the source's physical rules about those functions.
- **Sphere is a datatype.** Nothing writes a sphere after construction, so the constructor stores exactly its position and radius (BazookoidsCore/Utility/Sphere.cs:18-22).
- **Library helpers are parameters.** `Globals.PointPlaneDistance`, `PlaneProjection`, `SkewSymmetricMatrix`, `OrthonormaliseMatrix`, `Vector3.Length`, `Vector3.Normalize` and `Matrix.CreateFromYawPitchRoll` are uninterpreted functions bundled in a `Library` value. Every operation takes that value as a parameter. A lemma that needs a fact about one of them (for example `length(Zero) == 0`) states that fact as a hypothesis.
- **Plane sign convention.** The arena set-up (source/BazookoidsCore/BazookoidsGame.cs:429-433) only keeps vehicles inside if the distance is `dot(n, p) - D`. This is the predicate `SignedDistance`, used only as an assumption of the lemmas that need it.
- **Inputs.**
  - The ten `Random.NextDouble` draws of `ResetGame` are a sequence parameter.
  - A keyboard state is the set of keys held down.
  - The elapsed time is the integer `Milliseconds` component that line 542 reads.

## Model

| member | source | states |
|---|---|---|
| Spheres.Truncate | BazookoidsCore/Utility/Sphere.cs:35 | `(int)f` truncates toward zero: the integer part of f, from below for f >= 0 and from above for f < 0 |
| Spheres.Count | BazookoidsCore/Utility/Sphere.cs:35-39 | a loop `i < (int)f` never runs for f < 1, and otherwise runs the whole number n of times with n <= f < n + 1 |
| Spheres.GenerateBox | BazookoidsCore/Utility/Sphere.cs:28-47 | the three nested loops append exactly nx*(ny*nz) spheres (the loop counts), none if a truncated packing component is <= 0, all with the given radius, and the cell (x, y, z) at index x*ny*nz + y*nz + z, centred at startPosition + separation*(x, y, z) |
| Spheres.BlockLayout | BazookoidsCore/Utility/Sphere.cs:35-44 | the same length, emptiness, radius and cell-index facts for any completed grid of counts |
| Spheres.BlockAt | BazookoidsCore/Utility/Sphere.cs:35-41 | x outermost: cell (x, y, z) comes right after the x earlier slabs and the y earlier rows of its slab |
| Spheres.SlabAt | BazookoidsCore/Utility/Sphere.cs:37-41 | within a slab, cell (y, z) comes right after the y earlier rows, z innermost |
| Spheres.BlockLength | BazookoidsCore/Utility/Sphere.cs:35-44 | n slabs of ny rows of nz cells hold n*(ny*nz) spheres |
| Spheres.SlabLength | BazookoidsCore/Utility/Sphere.cs:37-43 | n rows of nz cells hold n*nz spheres |
| Spheres.RadiusOfSlab | BazookoidsCore/Utility/Sphere.cs:41 | every sphere of a slab has the radius argument |
| Spheres.RadiusOfBlock | BazookoidsCore/Utility/Sphere.cs:41 | every generated sphere has the radius argument |
| Spheres.StrictlyBetween | BazookoidsCore/Utility/Sphere.cs:32-41 | with lo < hi and packing >= 0, lo + s + s*i for a loop index i lies strictly between lo and hi, where s = (hi - lo)/(packing + 1) |
| Spheres.CentreInsideBox | BazookoidsCore/Utility/Sphere.cs:32-41 | with min < max and non-negative packing, every generated centre lies strictly inside the box in all three components |
| RigidBody.RigidBodyState.constructor | source/BazookoidsCore/Simulation/Vehicle.cs:57 | a new state has zero position, velocity, orientation matrix, angular momentum and angular velocity (the C# defaults) |
| RigidBody.ZeroStep | source/BazookoidsCore/Simulation/Vehicle.cs:66-72 | a step with timeDelta = 0 leaves position, velocity and angular momentum unchanged and only re-orthonormalises the orientation |
| RigidBody.LinearUpdate | source/BazookoidsCore/Simulation/Vehicle.cs:66-72 | position advances by the pre-update velocity times dt, independently of the force; Mass times the velocity change is exactly Force*dt; angular momentum changes by exactly Torque*dt |
| RigidBody.AngularVelocityFromMomentum | source/BazookoidsCore/Simulation/Vehicle.cs:72-73 | the angular velocity is rebuilt from the new angular momentum, so zero new momentum gives zero angular velocity |
| RigidBody.AtRestStaysAtRest | source/BazookoidsCore/Simulation/Vehicle.cs:64-74 | a body at rest with no force and no torque, whose orientation the orthonormalisation keeps, is left exactly as it was by a step of any length |
| Levitators.Levitator.constructor | BazookoidsCore/Simulation/Levitator.cs:30-34 | stores exactly the given anchor (`Positon`) and radius; PowerForce and TurningForce start at 0 |
| Vehicles.Vehicle.Empty | source/BazookoidsCore/Simulation/Vehicle.cs:51-58 | `new Vehicle()` has empty vertex, sphere and levitator arrays, a fresh state object at rest at the origin, and zero Force and Torque |
| Vehicles.Vehicle.constructor | source/BazookoidsCore/BazookoidsGame.cs:393-407 | the object initialiser sets mass, inertia, vertices, spheres, levitators and colour as given, on top of a fresh state at rest and zero accumulators |
| Vehicles.Vehicle.ApplyPhysics | source/BazookoidsCore/Simulation/Vehicle.cs:64-74 | the new state is one `Integrate` step of the old state with this vehicle's Force, Torque, Mass and inertia; only the state object changes |
| LegacyVehicles.Vehicle.ApplyPhysics | BazookoidsCore/Simulation/Vehicle.cs:53-63 | the older copy takes the same step, on a State that must have been assigned; only the state object changes |
| LegacyVehicles.ConstantsAgree | BazookoidsCore/Simulation/Vehicle.cs:10-19 | the contact constants (75, 5, 30, 0.15) and power (10) equal the newer copy's, and the drive constants are Brake 5 and Front/Rear turning 2, equal to the newer single turning constant |
| Contacts.IndexOf | source/BazookoidsCore/BazookoidsGame.cs:240 | `Array.IndexOf` returns the first index holding an equal plane, or -1 exactly when there is none |
| Contacts.FirstPlaneTest | source/BazookoidsCore/BazookoidsGame.cs:240 | the condition `IndexOf(boundaries, boundary) == 0` holds exactly for the boundaries equal to the first |
| Contacts.OnlyTheFloorLevitates | source/BazookoidsCore/BazookoidsGame.cs:221-275 | with distinct planes, boundary 0 gets its vertex contacts plus the levitator contacts, and every later boundary only its vertex contacts |
| Contacts.VertexContact | source/BazookoidsCore/BazookoidsGame.cs:226-236 | a vertex contributes nothing when 0.004 - distance < 0; otherwise Mass*(75*n*depth - 5*v) at the vertex, with torque r x F |
| Contacts.PenetrationPushesOut | source/BazookoidsCore/BazookoidsGame.cs:228-232 | for a resting point, positive mass and a non-zero normal, a positive depth gives a force with a positive normal component, and zero depth gives no force |
| Contacts.RestingVertexForce | source/BazookoidsCore/BazookoidsGame.cs:231-232 | at a resting point the vertex force is exactly Mass*75*depth along the normal |
| Contacts.Penetrating | source/BazookoidsCore/BazookoidsGame.cs:228-229 | the penetrating vertices are exactly the body's vertices with depth >= 0: each kept one qualifies and each qualifying one is kept |
| Contacts.OnlyPenetratingVerticesCount | source/BazookoidsCore/BazookoidsGame.cs:224-237 | the vertex loop's total equals its total over the penetrating vertices alone: non-contacting vertices change nothing |
| Contacts.SeparatedVerticesAddNothing | source/BazookoidsCore/BazookoidsGame.cs:224-237 | if no vertex reaches the plane, the vertex loop adds no force and no torque |
| Contacts.ZeroProjectionZeroDirection | source/BazookoidsCore/BazookoidsGame.cs:242-252 | a projected axis is normalised only when its length is positive; a zero projection stays the zero direction |
| Contacts.FlatAxesGiveNoDrive | source/BazookoidsCore/BazookoidsGame.cs:242-268 | when both body axes project to zero, every levitator's drive force is zero |
| Contacts.AirborneLevitatorInert | source/BazookoidsCore/BazookoidsGame.cs:258-272 | a levitator with bias - distance + Radius < 0 adds nothing, whatever its PowerForce and TurningForce |
| Contacts.DriveOnlyInContact | source/BazookoidsCore/BazookoidsGame.cs:259-271 | a levitator in contact adds its idle contribution plus exactly Mass*(PowerForce*forward + TurningForce*right) at its anchor |
| Contacts.IdleDrive | source/BazookoidsCore/BazookoidsGame.cs:268 | zero power and turning forces give a zero drive force |
| Contacts.RestingLift | source/BazookoidsCore/BazookoidsGame.cs:261-263 | at rest the lift is exactly Mass*50*depth along the normal: the component-wise vertical friction and the lateral friction vanish |
| Contacts.Grounded | source/BazookoidsCore/BazookoidsGame.cs:258-259 | the grounded levitators are exactly the body's levitators with depth >= 0: each kept one qualifies and each qualifying one is kept |
| Contacts.OnlyGroundedLevitatorsCount | source/BazookoidsCore/BazookoidsGame.cs:254-273 | the levitator loop's total equals its total over the grounded levitators alone |
| Contacts.SphereContact | source/BazookoidsCore/BazookoidsGame.cs:287-298 | a sphere pair engages exactly when the centre distance \|d\| is at most the sum t of the radii; its force is then Mass\*30\*(1 - \|d\|/t) along normalize(d) minus Mass\*0.15 times the centre's velocity, and its torque is r x F; for \|d\| >= 0 the fade 1 - \|d\|/t lies in [0, 1] and is 0 exactly at touching distance |
| Contacts.RestingSphereForce | source/BazookoidsCore/BazookoidsGame.cs:294-295 | at rest the sphere force points along the normalised separation and fades linearly from 30 per unit mass to 0 at the touching distance |
| Contacts.PairSumApart | source/BazookoidsCore/BazookoidsGame.cs:285-300 | a sphere touching none of the other vehicle's spheres adds nothing |
| Contacts.SphereSumApart | source/BazookoidsCore/BazookoidsGame.cs:280-301 | if no sphere pair touches, the sphere loops add nothing |
| Contacts.DistantVehiclesDoNotInteract | source/BazookoidsCore/BazookoidsGame.cs:278-302 | a vehicle apart from every other vehicle gets no body-body force or torque |
| Contacts.SelfNeverTested | source/BazookoidsCore/BazookoidsGame.cs:278 | the body-body sum for vehicle i does not depend on what sits at index i: a vehicle is never paired with itself |
| Contacts.VertexScales | source/BazookoidsCore/BazookoidsGame.cs:232-235 | a vertex contribution is the vehicle's mass times that of the same vehicle with unit mass |
| Contacts.VertexSumScales | source/BazookoidsCore/BazookoidsGame.cs:224-237 | the same for the vertex loop |
| Contacts.LevitatorScales | source/BazookoidsCore/BazookoidsGame.cs:261-271 | the same for one levitator's lift and drive |
| Contacts.LevitatorSumScales | source/BazookoidsCore/BazookoidsGame.cs:254-273 | the same for the levitator loop |
| Contacts.BoundaryScales | source/BazookoidsCore/BazookoidsGame.cs:222-274 | the same for one arena boundary |
| Contacts.ArenaSumScales | source/BazookoidsCore/BazookoidsGame.cs:221-275 | the same for the arena loop |
| Contacts.SphereScales | source/BazookoidsCore/BazookoidsGame.cs:294-298 | the same for one sphere pair |
| Contacts.SpherePairSumScales | source/BazookoidsCore/BazookoidsGame.cs:285-300 | the same for one sphere against the other vehicle |
| Contacts.SphereSumScales | source/BazookoidsCore/BazookoidsGame.cs:280-301 | the same for all spheres against the other vehicle |
| Contacts.BodyContactSumScales | source/BazookoidsCore/BazookoidsGame.cs:278-302 | the same for the loop over the other vehicles |
| Contacts.AccumulatedScalesWithMass | source/BazookoidsCore/BazookoidsGame.cs:216-304 | a vehicle's accumulated force and torque are its mass times those of the same vehicle with unit mass, so Force/Mass does not depend on the mass |
| Arena.ArenaPlanesDistinct | source/BazookoidsCore/BazookoidsGame.cs:427-434 | the five arena planes are pairwise different |
| Arena.ArenaDistances | source/BazookoidsCore/BazookoidsGame.cs:427-434 | under the signed-distance convention a point's distance from each plane is its height, or how far inside the wall at x or z = +-50 it is |
| Arena.ArenaContactRegions | source/BazookoidsCore/BazookoidsGame.cs:427-434 | under that convention each plane engages a point (0.004 - distance >= 0) exactly in the band at or beyond it: y <= 0.004, x <= -49.996, x >= 49.996, z <= -49.996, z >= 49.996 |
| Arena.ArenaCentreInside | source/BazookoidsCore/BazookoidsGame.cs:427-434 | under that convention the arena centre is on the positive side of every plane: the normals point inwards |
| Arena.OnlyTheArenaFloorLevitates | source/BazookoidsCore/BazookoidsGame.cs:427-434 | in the arena Initialize builds, the floor gets the vertex and levitator contacts and each of the four walls only the vertex contacts |
| Arena.GravityPullsDown | source/BazookoidsCore/BazookoidsGame.cs:438 | the game's gravity adds Mass*9.81 straight down and no torque |
| Game.CommandTable | source/BazookoidsCore/BazookoidsGame.cs:483-484 | a command is +magnitude exactly when the forward key is down (it beats the backward key), -magnitude exactly when only the backward key is down, and 0 exactly when neither is down |
| Game.CommandedPadsWrites | source/BazookoidsCore/BazookoidsGame.cs:483-507 | the writes keep every anchor and radius, give all four levitators the same power, the front pair the turning force and the rear pair its negation |
| Game.TurningIsACouple | source/BazookoidsCore/BazookoidsGame.cs:485-494 | the four turning forces sum to zero and the four power forces are equal |
| Game.Toggled | source/BazookoidsCore/BazookoidsGame.cs:511-520 | the switch always changes the mode |
| Game.ModeFollowsReleases | source/BazookoidsCore/BazookoidsGame.cs:509-535 | over any run of frames the camera mode has flipped exactly when the key saw an odd number of release edges; holding a key never flickers it |
| Game.Camera.constructor | BazookoidsCore/Utility/Camera.cs:11 | a new camera's Mode is the default, Fixed |
| Game.ToggleOnRelease | source/BazookoidsCore/BazookoidsGame.cs:509-521 | the mode flips when the key was down in the previous frame and is up now, and stays otherwise |
| Game.StartInsideArena | source/BazookoidsCore/BazookoidsGame.cs:316-326 | for draws in [0,1), both start states are at rest at height 3 with x in [-40, 40); vehicle 0 has z in [10, 40) and vehicle 1 has z in (-40, -10] |
| Game.StartClearOfWalls | source/BazookoidsCore/BazookoidsGame.cs:316-326 | under the signed-distance convention no point within 9 units (in x and z) of a start position reaches any wall |
| Game.AddVertexContacts | source/BazookoidsCore/BazookoidsGame.cs:224-237 | the vertex loop adds exactly the vertex sum for this plane to Force and Torque |
| Game.ProjectDirection | source/BazookoidsCore/BazookoidsGame.cs:242-252 | returns the projected axis, normalised only when its length is positive |
| Game.AddLevitatorContact | source/BazookoidsCore/BazookoidsGame.cs:256-272 | one levitator adds its lift and then its drive when in contact, and nothing when airborne |
| Game.AddLevitatorContacts | source/BazookoidsCore/BazookoidsGame.cs:240-274 | the levitator block adds exactly the floor contribution computed with the projected directions |
| Game.AddSpherePairContact | source/BazookoidsCore/BazookoidsGame.cs:287-298 | one sphere pair adds its contact force and torque to this vehicle when the spheres touch |
| Game.AddSpherePairContacts | source/BazookoidsCore/BazookoidsGame.cs:285-300 | the inner sphere loop adds exactly the sum over the other vehicle's spheres |
| Game.AddSphereContacts | source/BazookoidsCore/BazookoidsGame.cs:280-301 | the outer sphere loop adds exactly the sum over this vehicle's spheres |
| Game.AddBoundaryContacts | source/BazookoidsCore/BazookoidsGame.cs:222-274 | one pass over a boundary adds its vertex contacts and, when it is the first boundary, the levitator contacts |
| Game.AddArenaContacts | source/BazookoidsCore/BazookoidsGame.cs:221-275 | the arena loop adds exactly the sum over all boundaries |
| Game.AddVehicleContacts | source/BazookoidsCore/BazookoidsGame.cs:278-302 | one pass over the vehicles adds nothing for the vehicle itself and its sphere contacts for any other; no vehicle's value changes |
| Game.AddBodyContacts | source/BazookoidsCore/BazookoidsGame.cs:278-302 | the loop over the other vehicles adds exactly the body-body sum; only this vehicle's Force and Torque change |
| Game.ResetAccumulators | source/BazookoidsCore/BazookoidsGame.cs:218-219 | Force and Torque become zero; no vehicle's value changes |
| Game.AddArenaContactsOf | source/BazookoidsCore/BazookoidsGame.cs:221-275 | the arena loop for vehicle i, with no vehicle's value changed |
| Game.AddGravity | source/BazookoidsCore/BazookoidsGame.cs:304 | Force gains Mass*gravity and Torque is untouched |
| Game.AccumulateForces | source/BazookoidsCore/BazookoidsGame.cs:216-305 | vehicle i ends with exactly `Accumulated`: zero, then arena, then the other vehicles, then gravity once, against the frame's bodies; no body changes |
| Game.AccumulateAll | source/BazookoidsCore/BazookoidsGame.cs:216-305 | every vehicle ends with its `Accumulated` wrench, computed from the same bodies before any vehicle moves |
| Game.IntegrateAll | source/BazookoidsCore/BazookoidsGame.cs:308-311 | every state takes one step with its own vehicle's wrench and the same timeDelta; the levitators are untouched |
| Game.FrameKeepsGeometry | source/BazookoidsCore/BazookoidsGame.cs:483-540 | a frame keeps masses, inertia, vertices, spheres and levitator anchors and radii |
| Game.FrameStates | source/BazookoidsCore/BazookoidsGame.cs:537-540 | without a released Space the states enter the physics step unchanged; with one both are the start states of the draws |
| Game.ResetFrameAtRest | source/BazookoidsCore/BazookoidsGame.cs:537-540 | after a released Space both vehicles enter the physics step at rest at height 3, each in its own half |
| Game.IdleFrameDoesNotDrive | source/BazookoidsCore/BazookoidsGame.cs:483-507 | with no driving key down, every levitator's power and turning force is zero |
| Game.CommandLevitators | source/BazookoidsCore/BazookoidsGame.cs:487-494 | the eight writes leave one vehicle's levitators holding the commanded pads |
| Game.CommandVehicles | source/BazookoidsCore/BazookoidsGame.cs:483-507 | both vehicles' levitators hold their commanded pads, red from W/S/A/D and yellow from the arrows; the writes to one do not disturb the other |
| Game.Game.constructor | source/BazookoidsCore/BazookoidsGame.cs:347-438 | Initialize's vehicles, cameras, arena boundaries, gravity and initial keyboard state are stored as given |
| Game.Game.Initialize | source/BazookoidsCore/BazookoidsGame.cs:347-440 | a new game holds the given vehicles, cameras and start-up keyboard state, the arena's five boundaries and gravity, and, after the closing ResetGame, both vehicles are at their drawn start states |
| Game.Game.UpdatePhysics | source/BazookoidsCore/BazookoidsGame.cs:213-312 | each vehicle's Force and Torque are its `Accumulated` wrench from the frame's bodies, and each state is one `Integrate` step from its frame state with that wrench and the same timeDelta; the levitators are unchanged |
| Game.Game.ResetGame | source/BazookoidsCore/BazookoidsGame.cs:314-327 | both states become the start states of draws 0-4 (positive side) and 5-9 (negative side) |
| Game.Game.CommandFromKeyboard | source/BazookoidsCore/BazookoidsGame.cs:483-507 | the bodies become the commanded bodies of the keyboard state |
| Game.Game.SwitchCameras | source/BazookoidsCore/BazookoidsGame.cs:509-535 | C toggles camera 0 and N camera 1, each only on a release edge; no body changes |
| Game.Game.ResetOnRelease | source/BazookoidsCore/BazookoidsGame.cs:537-540 | the bodies are restarted exactly when Space was released, and unchanged otherwise |
| Game.Game.BeginFrame | source/BazookoidsCore/BazookoidsGame.cs:481-540 | the camera toggles happen as above, and the bodies become the frame bodies: commanded, then restarted on a released Space |
| Game.Game.Step | source/BazookoidsCore/BazookoidsGame.cs:481-542 | the camera toggles, then a physics step from the frame bodies (`Advanced`) |
| Game.Game.Update | source/BazookoidsCore/BazookoidsGame.cs:479-550 | the whole frame: cameras toggled on release edges of the stored keyboard state, the physics advanced from the frame bodies by Milliseconds/1000 seconds, and the new keyboard state stored for the next frame |

## Left out

- Rendering and content loading (`LoadVehicle`, `LoadArena`, `LoadSkybox`, `DrawScene`, `Draw`, `LoadContent`): graphics I/O through XNA.
- The rest of `Initialize`: viewports, light and projection matrices, and the inertia tensor through `Matrix.Invert`.
  - The bounding-sphere list that `Initialize` builds from `GenerateBox` by removing four spheres and adding four is also left out.
  - The vehicles it produces are inputs of `Game.Game.Initialize`, which passes the `Arena` planes and gravity to `Game.Game.constructor` and then resets the round; the constructor on its own accepts any planes and gravity.
- `Camera.Update` (source/BazookoidsCore/BazookoidsGame.cs:544-545) and the view matrices: renderer glue. Only a camera's `Mode` is modelled.
- The `CameraMode` enumeration is not part of this model. A new camera is taken to start in `Fixed`, the member the switch statements list first.
- `ProgramMain.cs`: the entry point only.
- `RigidBodyState.cs` is not part of this model. Its five fields are inferred from their use, and their initial values are assumed to be the C# zero defaults, with no initialisers. `RigidBody.RigidBodyState.constructor` and `Vehicles.Vehicle.Empty` rest on that assumption.
- Floating point: floats are exact reals, so NaN/Inf propagation, rounding and the drift of orthonormality are not modelled.
- The library helpers listed above are uninterpreted `Library` closures. Nothing the model proves depends on how they compute, beyond the hypotheses a lemma states.
- XNA's 4x4 `Matrix` is reduced to its 3x3 rotation part. This is an assumption: the `Globals` helpers that write orientations (`SkewSymmetricMatrix`, `OrthonormaliseMatrix`) are not part of this model, and they are assumed never to set the fourth row or column of an orientation. Under that assumption `Vector3.Transform` and `Matrix.Forward`/`Right` only see the 3x3 part.
- `Random` is replaced by ten given draws; `Keyboard.GetState` by the set of keys held down.
- Vehicle, Camera and Game properties that are set once and never reassigned are `const` fields. This covers a vehicle's mass, inertia, geometry, levitator array and State object, and the game's vehicles, planes, gravity and cameras. Reassigning them, as their C# setters would allow, is not modelled.
- Vehicles.Vehicle.ApplyPhysics: requires a non-zero mass, because the source divides by it and would produce Inf/NaN otherwise.
- LegacyVehicles.Vehicle.ApplyPhysics: requires an assigned State and a non-zero Mass. Without a State the source throws a NullReferenceException at its first line, and a zero Mass makes its division produce Inf/NaN; neither behaviour is modelled.
- Game.Game.UpdatePhysics: also requires positive bounding-sphere radii, for the same reason (the touch distance divides).
- Spheres.GenerateBox: a packing component of exactly -1 makes the C# division by zero produce infinities. The model gives that component separation 0 instead. No sphere is generated then, so the result is the same.
- `Vector3.Normalize` of a zero separation (coinciding sphere centres) is whatever the uninterpreted `normalize` returns.
- Game.Game.Update: stores the new keyboard state before the physics step rather than after it (line 547). Nothing in between reads the field, and the step is handed the previous state explicitly.
- `TimeSpan.Milliseconds` (line 542) is taken as the given integer. Its 0-999 range is not enforced.
