/** The per-tick systems that change the world, and the simulation step that
    runs them in their fixed order: movement, physics, collision, goal,
    world constraint. */
module Systems {
  import opened Geometry
  import opened Entities
  import opened Collision

  /** The four intent flags the keyboard layer maintains. */
  datatype Input = Input(left: bool, right: bool, jump: bool, reset: bool)

  // ---------------------------------------------------------------- movement

  /** The fixed simulation step in seconds: one 30th of a second. */
  const DeltaS: real := 1.0 / 30.0

  const MaxSpeed: real := 220.0

  /** Horizontal acceleration (px/s^2): strong on the ground, weak in the air. */
  function Acceleration(grounded: bool): real {
    if grounded then 1500.0 else 500.0
  }

  /** Damping coefficient (1/s): strong friction on the ground, little in the air. */
  function Damping(grounded: bool): real {
    if grounded then 15.0 else 2.0
  }

  /** Exactly one of left and right is held. */
  predicate Steers(input: Input) {
    input.left != input.right
  }

  /** Velocity after input acceleration and damping, before the clamp. */
  function SteeredVelocity(p: Player, input: Input, dt: real): real {
    var a := Acceleration(p.grounded);
    var v := if input.left && !input.right then p.vx - a * dt
             else if input.right && !input.left then p.vx + a * dt
             else p.vx;
    v - v * Damping(p.grounded) * dt
  }

  function ClampSpeed(v: real): (r: real)
    ensures -MaxSpeed <= r <= MaxSpeed
    ensures -MaxSpeed <= v <= MaxSpeed ==> r == v
    ensures v > MaxSpeed ==> r == MaxSpeed
    ensures v < -MaxSpeed ==> r == -MaxSpeed
  {
    if v > MaxSpeed then MaxSpeed else if v < -MaxSpeed then -MaxSpeed else v
  }

  /** The clamp never reorders speeds. */
  lemma ClampSpeedMonotone(u: real, v: real)
    requires u <= v
    ensures ClampSpeed(u) <= ClampSpeed(v)
  {
  }

  /** The movement system's update: only vx changes, and it always ends
      within the speed limit. */
  function Move(p: Player, input: Input, dt: real): (r: Player)
    ensures r == p.(vx := r.vx)
    ensures -MaxSpeed <= r.vx <= MaxSpeed
  {
    p.(vx := ClampSpeed(SteeredVelocity(p, input, dt)))
  }

  /** At the fixed step, with neither or both directions held, vx only
      decays toward zero: it keeps its sign and never grows in magnitude. */
  lemma NeutralInputOnlyDamps(p: Player, input: Input)
    requires !Steers(input)
    ensures var r := Move(p, input, DeltaS);
      && (p.vx >= 0.0 ==> 0.0 <= r.vx <= p.vx)
      && (p.vx <= 0.0 ==> p.vx <= r.vx <= 0.0)
  {
    if p.grounded {
      assert SteeredVelocity(p, input, DeltaS) == p.vx / 2.0;
    } else {
      assert SteeredVelocity(p, input, DeltaS) == p.vx * 14.0 / 15.0;
    }
  }

  /** At the fixed step, steering is monotone: holding only left never gives
      a larger vx than holding nothing, which never gives a larger vx than
      holding only right. */
  lemma SteeringIsMonotone(p: Player, jump: bool, reset: bool)
    ensures Move(p, Input(true, false, jump, reset), DeltaS).vx
            <= Move(p, Input(false, false, jump, reset), DeltaS).vx
            <= Move(p, Input(false, true, jump, reset), DeltaS).vx
  {
    var left := SteeredVelocity(p, Input(true, false, jump, reset), DeltaS);
    var none := SteeredVelocity(p, Input(false, false, jump, reset), DeltaS);
    var right := SteeredVelocity(p, Input(false, true, jump, reset), DeltaS);
    if p.grounded {
      assert left == (p.vx - 50.0) / 2.0 && none == p.vx / 2.0 && right == (p.vx + 50.0) / 2.0;
    } else {
      assert left == (p.vx - 50.0 / 3.0) * 14.0 / 15.0 && none == p.vx * 14.0 / 15.0;
      assert right == (p.vx + 50.0 / 3.0) * 14.0 / 15.0;
    }
    ClampSpeedMonotone(left, none);
    ClampSpeedMonotone(none, right);
  }

  // ----------------------------------------------------------------- physics

  const Gravity: real := 800.0
  const JumpSpeed: real := 350.0

  /** The physics system's update: a jump is taken only from the ground,
      gravity then acts for `dt`, and position advances with the updated
      velocity (semi-implicit Euler). */
  function Integrate(p: Player, input: Input, dt: real): (r: Player)
    ensures r == p.(x := r.x, y := r.y, vy := r.vy)
    ensures r.x - p.x == p.vx * dt
    ensures r.y - p.y == r.vy * dt
    ensures input.jump && p.grounded ==> r.vy == -JumpSpeed + Gravity * dt
    ensures !(input.jump && p.grounded) ==> r.vy == p.vy + Gravity * dt
  {
    var vy := if input.jump && p.grounded then -JumpSpeed else p.vy;
    var vy' := vy + Gravity * dt;
    p.(vy := vy', x := p.x + p.vx * dt, y := p.y + vy' * dt)
  }

  /** One fixed step of free fall from rest: vy becomes 800/30 and y moves
      down by vy/30 = 8/9. */
  lemma FallFromRestOneStep(p: Player, input: Input)
    requires p.vy == 0.0
    requires !(input.jump && p.grounded)
    ensures Integrate(p, input, DeltaS).vy == 80.0 / 3.0
    ensures Integrate(p, input, DeltaS).y == p.y + 8.0 / 9.0
  {
  }

  /** A jump from the ground at the fixed step moves the player upward
      (negative y) despite that step's gravity. */
  lemma JumpTakesOff(p: Player, input: Input)
    requires input.jump && p.grounded
    ensures Integrate(p, input, DeltaS).vy < 0.0
    ensures Integrate(p, input, DeltaS).y < p.y
  {
  }

  // -------------------------------------------------------------------- goal

  /** The goal system's update: the won flag latches on the first overlap of
      player and goal and is never cleared here. */
  function GoalUpdate(w: World): (r: World)
    ensures r == w.(isWon := r.isWon)
    ensures r.isWon <==> w.isWon || Overlaps(w.player.Box(), w.goal.Box())
    ensures (!w.isWon && r.isWon) <==> (!w.isWon && Overlaps(w.player.Box(), w.goal.Box()))
  {
    if !w.isWon && ComputeCollisionData(w.player.Box(), w.goal.Box()).overlaps then
      w.(isWon := true)
    else
      w
  }

  // -------------------------------------------------------- world constraint

  /** The player's horizontal bounds, fixed when the system is created. */
  datatype WorldConstraint = WorldConstraint(minPlayerX: real, maxPlayerX: real)

  /** Bounds that keep the whole player square inside [minX, maxX]. */
  function CreateWorldConstraint(w: World): (c: WorldConstraint)
    ensures WellFormed(w) && w.width >= w.player.size ==> c.minPlayerX <= c.maxPlayerX
    ensures c.minPlayerX - w.player.halfSize == w.minX
    ensures c.maxPlayerX + w.player.halfSize == w.maxX
  {
    WorldConstraint(w.minX + w.player.halfSize, w.maxX - w.player.halfSize)
  }

  /** `max(minPlayerX, min(maxPlayerX, x))`. */
  function ClampX(c: WorldConstraint, x: real): (r: real)
    ensures c.minPlayerX <= c.maxPlayerX ==> c.minPlayerX <= r <= c.maxPlayerX
    ensures c.minPlayerX <= x <= c.maxPlayerX ==> r == x
    ensures x < c.minPlayerX ==> r == c.minPlayerX
    ensures c.minPlayerX <= c.maxPlayerX < x ==> r == c.maxPlayerX
    ensures c.maxPlayerX < c.minPlayerX ==> r == c.minPlayerX
  {
    Max(c.minPlayerX, Min(c.maxPlayerX, x))
  }

  /** The player's bottom edge is below the kill plane. */
  predicate PastKillPlane(w: World) {
    w.player.y - w.player.halfSize > w.killPlaneY
  }

  /** The spawn point lies inside the bounds and above the kill plane, so a
      respawned player satisfies the constraint. */
  predicate SpawnIsSafe(c: WorldConstraint, w: World) {
    && c.minPlayerX <= w.spawn.x <= c.maxPlayerX
    && w.spawn.y - w.player.halfSize <= w.killPlaneY
  }

  /** The world constraint system's update: clamp x (zeroing vx only when the
      clamp moved the player), then respawn a player past the kill plane.
      The won flag is untouched. */
  function ConstrainUpdate(c: WorldConstraint, w: World): (r: World)
    ensures SameLevel(r, w) && r.isWon == w.isWon
    ensures PastKillPlane(w) ==> r == Respawn(w)
    ensures !PastKillPlane(w) ==>
      && r.player == w.player.(x := r.player.x, vx := r.player.vx)
      && r.player.x == ClampX(c, w.player.x)
      && r.player.vx == (if r.player.x != w.player.x then 0.0 else w.player.vx)
    ensures SpawnIsSafe(c, w) ==> c.minPlayerX <= r.player.x <= c.maxPlayerX && !PastKillPlane(r)
  {
    var clampedX := ClampX(c, w.player.x);
    var w' := if clampedX != w.player.x then w.(player := w.player.(x := clampedX, vx := 0.0)) else w;
    if PastKillPlane(w') then Respawn(w') else w'
  }

  /** Applying the constraint a second time changes nothing. */
  lemma ConstrainIdempotent(c: WorldConstraint, w: World)
    requires SpawnIsSafe(c, w)
    ensures ConstrainUpdate(c, ConstrainUpdate(c, w)) == ConstrainUpdate(c, w)
  {
    var r := ConstrainUpdate(c, w);
    assert SameLevel(r, w);
    assert SpawnIsSafe(c, r);
    assert !PastKillPlane(r);
    assert ClampX(c, r.player.x) == r.player.x;
  }

  // ------------------------------------------------------- simulation step

  /** One simulation step in the fixed system order. Static bodies, spawn and
      bounds are untouched, a win is never lost, and with a safe spawn the
      player ends inside the horizontal bounds. */
  function Step(c: WorldConstraint, w: World, input: Input, dt: real): (r: World)
    ensures SameLevel(r, w)
    ensures w.isWon ==> r.isWon
    ensures SpawnIsSafe(c, w) ==> c.minPlayerX <= r.player.x <= c.maxPlayerX && !PastKillPlane(r)
  {
    var moved := w.(player := Move(w.player, input, dt));
    var integrated := moved.(player := Integrate(moved.player, input, dt));
    var collided := integrated.(player := Collide(integrated.player, integrated.solids));
    var scored := GoalUpdate(collided);
    ConstrainUpdate(c, scored)
  }
}
