/** The entities of the platformer and the world that holds them, with the
    helpers that build, respawn, reset and snapshot it. */
module Entities {
  import opened Geometry

  /** A static body (a solid or the goal): position and size only. */
  datatype Body = Body(x: real, y: real, size: real, halfSize: real) {
    function Box(): Box {
      Geometry.Box(x, y, halfSize)
    }
  }

  /** The one dynamic body: position, size, velocity (px/s) and whether the
      last collision pass landed it on top of a solid. */
  datatype Player = Player(
    x: real,
    y: real,
    size: real,
    halfSize: real,
    vx: real,
    vy: real,
    grounded: bool)
  {
    function Box(): Box {
      Geometry.Box(x, y, halfSize)
    }
  }

  /** The aggregate root of the simulation. */
  datatype World = World(
    width: real,
    height: real,
    maxX: real,
    minX: real,
    spawn: Point,
    killPlaneY: real,
    player: Player,
    solids: seq<Body>,
    goal: Body,
    isWon: bool)

  /** Position of the player at one simulation tick, the only state that is
      interpolated for rendering. */
  datatype Snapshot = Snapshot(player: Point)

  /** `createEntity` without velocity: a static body whose half size is half its size. */
  function CreateBody(x: real, y: real, size: real): (b: Body)
    ensures b.x == x && b.y == y && b.size == size
    ensures b.halfSize * 2.0 == size
  {
    Body(x, y, size, size / 2.0)
  }

  /** `createEntity` with velocity and grounded flag: the player. */
  function CreatePlayer(x: real, y: real, size: real, vx: real, vy: real, grounded: bool): (p: Player)
    ensures p.x == x && p.y == y && p.size == size
    ensures p.vx == vx && p.vy == vy && p.grounded == grounded
    ensures p.halfSize * 2.0 == size
  {
    Player(x, y, size, size / 2.0, vx, vy, grounded)
  }

  predicate BodyWellFormed(b: Body) {
    b.size > 0.0 && b.halfSize * 2.0 == b.size
  }

  /** The structural invariants of a world: every half size is half its
      size, and the horizontal bounds are symmetric around zero. */
  predicate WellFormed(w: World) {
    && w.maxX * 2.0 == w.width
    && w.minX == -w.maxX
    && w.player.size > 0.0
    && w.player.halfSize * 2.0 == w.player.size
    && BodyWellFormed(w.goal)
    && forall i :: 0 <= i < |w.solids| ==> BodyWellFormed(w.solids[i])
  }

  /** `a` is `b` with possibly another player state and won flag: the solids,
      goal, spawn, bounds and the player's size are the same. */
  predicate SameLevel(a: World, b: World) {
    && a == b.(player := a.player, isWon := a.isWon)
    && a.player.size == b.player.size
    && a.player.halfSize == b.player.halfSize
  }

  /** The one concrete level of the game. */
  function CreateWorld(): (w: World)
    ensures WellFormed(w)
    ensures !w.isWon
    ensures w.player.x == w.spawn.x && w.player.y == w.spawn.y
    ensures w.player.vx == 0.0 && w.player.vy == 0.0 && !w.player.grounded
    ensures w.player.y - w.player.halfSize <= w.killPlaneY
    ensures forall i :: 0 <= i < |w.solids| ==> !Overlaps(w.player.Box(), w.solids[i].Box())
    ensures !Overlaps(w.player.Box(), w.goal.Box())
  {
    var width := 800.0;
    var size := 50.0;
    var maxX := width / 2.0;
    var spawn := Point(0.0, -200.0);
    World(
      width,
      600.0,
      maxX,
      -maxX,
      spawn,
      900.0,
      CreatePlayer(spawn.x, spawn.y, size, 0.0, 0.0, false),
      [CreateBody(0.0, 200.0, size), CreateBody(-100.0, 180.0, size), CreateBody(50.0, 530.0, 500.0)],
      CreateBody(100.0, 150.0, size),
      false)
  }

  /** Put the player back on the spawn point at rest and airborne. */
  function Respawn(w: World): (r: World)
    ensures SameLevel(r, w) && r.isWon == w.isWon
    ensures r.player.x == w.spawn.x && r.player.y == w.spawn.y
    ensures r.player.vx == 0.0 && r.player.vy == 0.0 && !r.player.grounded
  {
    w.(player := w.player.(x := w.spawn.x, y := w.spawn.y, vx := 0.0, vy := 0.0, grounded := false))
  }

  /** Clear the win and respawn the player. */
  function ResetWorld(w: World): (r: World)
    ensures SameLevel(r, w) && !r.isWon
    ensures r.player == Respawn(w).player
  {
    Respawn(w.(isWon := false))
  }

  /** Resetting any world of the level gives back the world the game started
      with, whatever the player did in between. */
  lemma ResetRestoresStart(w: World)
    requires SameLevel(w, CreateWorld())
    ensures ResetWorld(w) == CreateWorld()
  {
  }

  /** Resetting twice is resetting once. */
  lemma ResetIdempotent(w: World)
    ensures ResetWorld(ResetWorld(w)) == ResetWorld(w)
  {
  }

  function SnapshotWorld(w: World): (s: Snapshot)
    ensures s.player.x == w.player.x && s.player.y == w.player.y
  {
    Snapshot(Point(w.player.x, w.player.y))
  }
}
