# Fixed-step platformer core, modelled in Dafny

This project models the simulation core of a small browser platformer
(`src/Game.js`). A single square player runs and jumps among static square
solids. It wins when it touches the goal square and is respawned when it
falls past a kill plane. The core consists of:

- the strict axis-aligned overlap test;
- the sequential, axis-separated collision resolver that derives `isGrounded`;
- the movement, physics, goal and world-constraint systems;
- the respawn and reset helpers;
- the interpolating frame builder;
- the fixed-timestep accumulator body of the animation-frame `loop`.

All quantities are exact `real`s in pixels, pixels per second and
milliseconds. Every update is a pure function from the old world to the new
one. The mutable closure state of `game` (`last`, `accumulator`,
`renderAccumulator`, the two snapshots and the constraint bounds) is the
`Game` datatype. The clock reading `now` and the held input flags are
parameters of `Scheduler.Loop`.

Modules, in dependency order:

| file | module | contents |
|---|---|---|
| geometry.dfy | `Geometry` | boxes, `ComputeCollisionData`, `Overlaps` |
| entities.dfy | `Entities` | `Body`, `Player`, `World`, `Snapshot`, `CreateWorld`, respawn/reset, snapshot |
| collision.dfy | `Collision` | one-solid resolution, the fold over all solids, the collision update |
| systems.dfy | `Systems` | movement, physics, goal, world constraint, one simulation `Step` |
| frames.dfy | `Frames` | `Interpolate`, `Frame`, `BuildFrame` |
| scheduler.dfy | `Scheduler` | tick constants, delta clamp, `Tick`, `Run`, `Game`, `Start`, `Loop` |

Sequential resolution deserves a note. The resolver visits `world.solids`
in list order, and each solid sees the position that the earlier solids
left. Pushing the player out of a later solid can push it back into an
earlier one: `Collision.SequentialResolutionCanReenterEarlierSolid` shows a
player lifted by one solid and pushed straight back into it by the next.
So the model states non-penetration only for the solid just resolved, and
hence for the last solid of the list, not for every solid.

## Model

| member | source | states |
|---|---|---|
| Geometry.ComputeCollisionData | src/Game.js:49-66 | the offset magnitudes are non-negative, and the overlap flag holds exactly when the open x-extents and the open y-extents of the two squares both intersect |
| Geometry.OverlapsSymmetric | src/Game.js:49-66 | swapping the two boxes does not change the overlap verdict |
| Geometry.EdgeContactIsNotOverlap | src/Game.js:64 | squares whose centre distance equals the combined half size on either axis (touching edges) do not overlap |
| Entities.CreateBody | src/Game.js:23-33 | a static body keeps its position and size and its half size is half its size |
| Entities.CreatePlayer | src/Game.js:23-33 | the player keeps its position, size, velocity and grounded flag, and its half size is half its size |
| Entities.SnapshotWorld | src/Game.js:35-39 | a snapshot records the player's current position |
| Entities.Respawn | src/Game.js:41-47 | respawning puts the player on the spawn point at rest and airborne, changing nothing else (the level and won flag are kept) |
| Entities.ResetWorld | src/Game.js:72-75 | reset clears the won flag and respawns the player, changing nothing else |
| Entities.ResetIdempotent | src/Game.js:72-75 | resetting twice is the same as resetting once |
| Entities.CreateWorld | src/Game.js:77-95 | the level is well formed (half sizes are halves, bounds symmetric), not won, the player starts at rest on the spawn point, above the kill plane and overlapping neither a solid nor the goal |
| Entities.ResetRestoresStart | src/Game.js:72-95 | resetting any world of the level, whatever the player state and won flag, gives back exactly the starting world |
| Collision.ResolveSolid | src/Game.js:204-218 | one resolution never changes the player's size |
| Collision.ResolveSolidSeparates | src/Game.js:204-218 | a player that does not overlap the solid is untouched, and after resolution the player does not overlap that solid |
| Collision.OverlapTakesOneAxis | src/Game.js:204-211 | an overlap takes exactly one of the X and Y branches, and equal overlaps take the Y branch |
| Collision.ResolveSolidAlongX | src/Game.js:208-210 | the X branch changes only x and vx, sets vx to 0 and leaves the player flush against the side face its centre was nearer |
| Collision.ResolveSolidAlongY | src/Game.js:211-217 | the Y branch changes only y, vy and grounded, sets vy to 0, leaves the player flush against the top or bottom face, and grounds it exactly when its centre was above the solid |
| Collision.ResolveSolidGrounded | src/Game.js:212-217 | after one resolution the player is grounded exactly when it was grounded before or that solid landed it |
| Collision.ResolveAll | src/Game.js:201-220 | resolving the solids in list order keeps the player's size and leaves it clear of the last solid |
| Collision.ResolveAllOfTwo | src/Game.js:201-202 | resolution is sequential: two solids are resolved first then second, each seeing the position the first left |
| Collision.ResolveAllHeadFirst | src/Game.js:201-220 | the loop visits the solids head first: resolving a list is resolving its first solid, then the rest from where that solid left the player |
| Collision.SequentialResolutionCanReenterEarlierSolid | src/Game.js:201-218 | for every player size, a player overlapping solid `a` and only touching solid `b` ends, after resolving `[a, b]`, back at its starting height and overlapping `a` again |
| Collision.GroundedIffSomeLanding | src/Game.js:201-217 | after the loop the player is grounded exactly when it started grounded or some solid, met in list order from the position the earlier solids left, landed it |
| Collision.Collide | src/Game.js:198-221 | the collision update changes only position, velocity and grounded, and leaves the player clear of the last solid |
| Collision.CollideGroundedIffLanded | src/Game.js:199-217 | after the collision update the player is grounded exactly when some solid took the Y branch with the player above it; an earlier grounded flag never survives |
| Systems.ClampSpeed | src/Game.js:173-177 | the clamped speed lies in [-220, 220], equals the input inside that range and the nearer limit outside it |
| Systems.ClampSpeedMonotone | src/Game.js:173-177 | the speed clamp preserves order |
| Systems.Move | src/Game.js:162-178 | the movement update changes only vx, and vx ends in [-220, 220] for every input and prior velocity |
| Systems.NeutralInputOnlyDamps | src/Game.js:165-171 | at the fixed step, with neither or both of left and right held, vx keeps its sign and does not grow in magnitude |
| Systems.SteeringIsMonotone | src/Game.js:163-177 | at the fixed step, holding only left never gives a larger vx than holding nothing, and holding nothing never gives a larger vx than holding only right |
| Systems.Integrate | src/Game.js:184-192 | the physics update changes only x, y and vy; a jump replaces vy only when grounded, gravity is applied before the position update, and the position moves by the updated velocity |
| Systems.FallFromRestOneStep | src/Game.js:189-191 | from rest without a jump, one fixed step gives vy = 80/3 px/s and moves the player down by 8/9 px |
| Systems.JumpTakesOff | src/Game.js:185-191 | a grounded jump leaves the player moving up and above where it was after one fixed step |
| Systems.GoalUpdate | src/Game.js:227-231 | the goal update changes only the won flag, never clears it, and sets it exactly when it was clear and player and goal overlap |
| Systems.CreateWorldConstraint | src/Game.js:236-237 | the player's x bounds are the world bounds inset by the player's half size, and are ordered for a well-formed world at least one player wide |
| Systems.ClampX | src/Game.js:241 | the clamp keeps x inside ordered bounds, leaves an x already inside unchanged, and picks the lower bound when the bounds cross |
| Systems.ConstrainUpdate | src/Game.js:240-249 | the constraint update keeps the level and the won flag; past the kill plane it respawns; otherwise it clamps x and zeroes vx exactly when the clamp moved x; with a safe spawn the player ends within bounds and above the kill plane |
| Systems.ConstrainIdempotent | src/Game.js:240-249 | with a safe spawn, applying the constraint a second time changes nothing |
| Systems.Step | src/Game.js:436-442 | one simulation step (movement, physics, collision, goal, constraint) keeps the level, never loses a win, and with a safe spawn leaves the player within the x bounds and above the kill plane |
| Frames.Interpolate | src/Game.js:68-70 | interpolation gives the start at alpha 0 and the end at alpha 1 |
| Frames.InterpolateBetween | src/Game.js:68-70 | for alpha in [0, 1] the interpolated value lies between the two endpoints |
| Frames.InterpolateIsWeightedMean | src/Game.js:68-70 | interpolation equals the weighted mean (1 - alpha) * start + alpha * end |
| Frames.BuildFrame | src/Game.js:97-125 | the frame copies the dimensions, won flag, goal and solids of the world and the player's size; the player position is the weighted mean (1 - alpha) * previous + alpha * current of the two snapshots, so the previous snapshot at alpha 0 and the current one at alpha 1 |
| Frames.FramePlayerBetweenSnapshots | src/Game.js:98-99 | for alpha in [0, 1] the drawn player lies within the box spanned by the two snapshots |
| Scheduler.FixedStepMatchesTick | src/Game.js:390-394 | the step in seconds handed to the systems is the tick length in milliseconds divided by 1000 |
| Scheduler.ClampDelta | src/Game.js:426 | the frame delta is cut to at most two ticks and otherwise unchanged; it has no lower clamp |
| Scheduler.Tick | src/Game.js:432-442 | a won world with reset held is reset (won cleared, player respawned) instead of stepped; any other world takes one fixed step; a win without reset is kept |
| Scheduler.Run | src/Game.js:431-446 | any number of ticks keep the level and a safe spawn, keep a win while reset is not held, and after at least one tick leave the player in bounds |
| Scheduler.ResetAfterWinRestoresStart | src/Game.js:434-435 | from the starting world, after any number of ticks, a won game reset by the player is exactly the starting world |
| Scheduler.Start | src/Game.js:404-420 | a new game holds the starting world, nothing accumulated, equal snapshots and a consistent state |
| Scheduler.TicksStayConsistent | src/Game.js:431-446 | ticks from a consistent game stay on the level and keep the player within bounds and above the kill plane |
| Scheduler.RunTicks | src/Game.js:431-446 | the while loop consumes whole ticks until less than one is pending, never drives a non-negative accumulator negative, runs `Run` for exactly the ticks it counts, and keeps previous/current as the last two snapshots |
| Scheduler.AtMostTwoTicks | src/Game.js:426-431 | with less than one tick pending and a clamped delta, at most two ticks run |
| Scheduler.BlendFactorInUnitRange | src/Game.js:449 | less than one tick pending gives a blend factor in [0, 1) |
| Scheduler.Loop | src/Game.js:422-457 | the accumulator gains the clamped delta and loses one tick per step, ends below one tick, and ends non-negative when it started so; at most two steps run from a pending time below one tick; the world is `Run` for that many steps; a frame is built exactly when a tick of render time has accumulated, blended by the pending fraction; a consistent game with a non-decreasing clock stays consistent |

## Left out

- DOM and canvas creation and `createPxSize` (src/Game.js:11-19, 396-397) are platform I/O.
- The keyboard listeners of `createInputSystem` (src/Game.js:127-155) are event wiring. The input is four given booleans (`Systems.Input`), held constant during one call of the loop.
- `createRenderer` and `createRenderSystem` (src/Game.js:254-387) write pixels. The model stops at the `Frame` value they would draw.
- `requestAnimationFrame` and `performance.now` (src/Game.js:415, 459-466) schedule the loop and read the clock. `now` is a parameter of `Scheduler.Loop` and `Scheduler.Start`.
- The camera copy (src/Game.js:451-452) only feeds the renderer.
- IEEE-754 rounding is not modelled. All arithmetic is exact real arithmetic, so the fixed step is exactly 1/30 s.
- Collision.ResolveAll: non-penetration is stated only for the last solid, not for every solid. Resolution is sequential, and a later solid can push the player back into an earlier one (`Collision.SequentialResolutionCanReenterEarlierSolid`).
- Systems.NeutralInputOnlyDamps: the property is stated at the fixed step of 1/30 s that the loop always passes, not for an arbitrary `dt`.
- Systems.SteeringIsMonotone: stated at the fixed step of 1/30 s, for the same reason.
- Scheduler.Loop: the render accumulator is only shown to move by the clamped delta and by one tick per drawn frame. The code puts no bound on it, and a negative clock delta can drive both accumulators down.
