/** The game loop: a fixed-step accumulator that runs zero or more simulation
    ticks per animation frame, and a render accumulator that decides whether
    the frame is drawn. The clock reading `now` is a parameter. */
module Scheduler {
  import opened Geometry
  import opened Entities
  import opened Systems
  import opened Frames

  const SecondMs: real := 1000.0

  /** Length of one simulation tick in milliseconds (30 ticks per second). */
  const TargetFrameMs: real := 1000.0 / 30.0

  /** The longest frame delta the loop accepts; longer gaps are cut to this. */
  const MaxDeltaMs: real := TargetFrameMs * 2.0

  /** The tick length in seconds that every system update receives is the
      tick length in milliseconds converted to seconds. */
  lemma FixedStepMatchesTick()
    ensures DeltaS == TargetFrameMs / SecondMs
  {
  }

  datatype Option<T> = None | Some(value: T)

  /** The frame delta after the upper clamp; there is no lower clamp. */
  function ClampDelta(deltaMs: real): (r: real)
    ensures r <= MaxDeltaMs
    ensures deltaMs <= MaxDeltaMs ==> r == deltaMs
    ensures deltaMs > MaxDeltaMs ==> r == MaxDeltaMs
  {
    if deltaMs > MaxDeltaMs then MaxDeltaMs else deltaMs
  }

  /** One iteration of the fixed-step loop: a won world with reset held is
      reset; any other world takes one simulation step at the fixed step. */
  function Tick(c: WorldConstraint, w: World, input: Input): (r: World)
    ensures SameLevel(r, w)
    ensures w.isWon && input.reset ==> !r.isWon && r.player == Respawn(w).player
    ensures !(w.isWon && input.reset) ==> r == Step(c, w, input, DeltaS)
    ensures w.isWon && !input.reset ==> r.isWon
    ensures SpawnIsSafe(c, w) ==> c.minPlayerX <= r.player.x <= c.maxPlayerX && !PastKillPlane(r)
  {
    if w.isWon && input.reset then ResetWorld(w) else Step(c, w, input, DeltaS)
  }

  /** `n` ticks with the same input held, as one call of the loop runs them. */
  function Run(c: WorldConstraint, w: World, input: Input, n: nat): (r: World)
    ensures SameLevel(r, w)
    ensures SpawnIsSafe(c, w) ==> SpawnIsSafe(c, r)
    ensures SpawnIsSafe(c, w) && n > 0 ==> c.minPlayerX <= r.player.x <= c.maxPlayerX && !PastKillPlane(r)
    ensures w.isWon && !input.reset ==> r.isWon
    decreases n
  {
    if n == 0 then w else Tick(c, Run(c, w, input, n - 1), input)
  }

  /** After any number of ticks from the start, a won game reset by the
      player is exactly the game it started as. */
  lemma ResetAfterWinRestoresStart(input: Input, n: nat, reset: Input)
    requires reset.reset
    ensures var c := CreateWorldConstraint(CreateWorld());
      var w := Run(c, CreateWorld(), input, n);
      w.isWon ==> Tick(c, w, reset) == CreateWorld()
  {
    var c := CreateWorldConstraint(CreateWorld());
    var w := Run(c, CreateWorld(), input, n);
    if w.isWon {
      ResetRestoresStart(w);
    }
  }

  /** The whole state of a running game between two animation frames. */
  datatype Game = Game(
    world: World,
    constraint: WorldConstraint,
    last: real,
    accumulator: real,
    renderAccumulator: real,
    previous: Snapshot,
    current: Snapshot)

  /** What holds between frames of a game whose clock never runs backwards:
      the level is the one it started with, the constraint is the one built
      for it, the current snapshot is the world's, less than a tick is
      pending, and the player is inside the horizontal bounds. */
  predicate Consistent(g: Game) {
    && SameLevel(g.world, CreateWorld())
    && g.constraint == CreateWorldConstraint(CreateWorld())
    && g.current == SnapshotWorld(g.world)
    && 0.0 <= g.accumulator < TargetFrameMs
    && g.constraint.minPlayerX <= g.world.player.x <= g.constraint.maxPlayerX
    && !PastKillPlane(g.world)
  }

  /** A new game at clock reading `now`: the level's starting world, nothing
      accumulated, and both snapshots taken from that world. */
  function Start(now: real): (g: Game)
    ensures g.world == CreateWorld() && g.last == now
    ensures g.accumulator == 0.0 && g.renderAccumulator == 0.0
    ensures g.previous == g.current
    ensures SpawnIsSafe(g.constraint, g.world)
    ensures Consistent(g)
  {
    var w := CreateWorld();
    var s := SnapshotWorld(w);
    Game(w, CreateWorldConstraint(w), now, 0.0, 0.0, s, s)
  }

  /** Any number of ticks from a consistent game stay on the level and keep
      the player inside the horizontal bounds. */
  lemma TicksStayConsistent(g: Game, input: Input, steps: nat)
    requires Consistent(g)
    ensures var w := Run(g.constraint, g.world, input, steps);
      && SameLevel(w, CreateWorld())
      && g.constraint.minPlayerX <= w.player.x <= g.constraint.maxPlayerX
      && !PastKillPlane(w)
  {
    assert SpawnIsSafe(g.constraint, g.world);
  }

  /** The fixed-step loop of one animation frame: while a whole tick is
      accumulated, shift the current snapshot to previous, tick, snapshot
      the world and consume one tick's worth of time. */
  method RunTicks(c: WorldConstraint, w: World, input: Input, accumulator0: real, previous0: Snapshot, current0: Snapshot)
    returns (world: World, accumulator: real, steps: nat, previous: Snapshot, current: Snapshot)
    ensures accumulator == accumulator0 - steps as real * TargetFrameMs
    ensures accumulator < TargetFrameMs
    ensures accumulator0 >= 0.0 ==> accumulator >= 0.0
    ensures steps > 0 ==> accumulator >= 0.0
    ensures accumulator0 < TargetFrameMs ==> steps == 0
    ensures world == Run(c, w, input, steps)
    ensures current == (if steps == 0 then current0 else SnapshotWorld(world))
    ensures previous ==
      if steps == 0 then previous0
      else if steps == 1 then current0
      else SnapshotWorld(Run(c, w, input, steps - 1))
  {
    world, accumulator, steps, previous, current := w, accumulator0, 0, previous0, current0;
    while accumulator >= TargetFrameMs
      invariant accumulator == accumulator0 - steps as real * TargetFrameMs
      invariant accumulator0 >= 0.0 ==> accumulator >= 0.0
      invariant steps > 0 ==> accumulator >= 0.0
      invariant world == Run(c, w, input, steps)
      invariant current == (if steps == 0 then current0 else SnapshotWorld(world))
      invariant previous ==
        if steps == 0 then previous0
        else if steps == 1 then current0
        else SnapshotWorld(Run(c, w, input, steps - 1))
      decreases (accumulator / TargetFrameMs).Floor
    {
      previous := current;
      world := Tick(c, world, input);
      current := SnapshotWorld(world);
      accumulator := accumulator - TargetFrameMs;
      steps := steps + 1;
    }
  }

  /** At most two ticks run in one frame when less than a tick was pending,
      because the frame delta is at most two ticks. */
  lemma AtMostTwoTicks(pending: real, deltaMs: real, steps: nat)
    requires pending < TargetFrameMs && deltaMs <= MaxDeltaMs
    requires pending + deltaMs - steps as real * TargetFrameMs >= 0.0
    ensures steps <= 2
  {
  }

  /** Less than a tick pending gives a blend factor in [0, 1). */
  lemma BlendFactorInUnitRange(pending: real)
    requires 0.0 <= pending < TargetFrameMs
    ensures 0.0 <= pending / TargetFrameMs < 1.0
  {
  }

  /** One animation frame at clock reading `now` with `input` held. It runs
      as many whole ticks as the accumulator holds (`steps`), then, if a
      tick's worth of render time has built up, builds the frame to draw,
      blended by the fraction of a tick still pending. */
  method Loop(g: Game, now: real, input: Input) returns (next: Game, steps: nat, frame: Option<Frame>)
    ensures var delta := ClampDelta(now - g.last);
      && next.last == now
      && next.constraint == g.constraint
      && next.accumulator == g.accumulator + delta - steps as real * TargetFrameMs
      && next.accumulator < TargetFrameMs
      && (g.accumulator + delta >= 0.0 ==> next.accumulator >= 0.0)
      && (g.accumulator + delta < TargetFrameMs ==> steps == 0)
    ensures g.accumulator < TargetFrameMs ==> steps <= 2
    ensures g.accumulator >= 0.0 && now >= g.last ==> 0.0 <= next.accumulator / TargetFrameMs < 1.0
    ensures next.world == Run(g.constraint, g.world, input, steps)
    ensures next.current == (if steps == 0 then g.current else SnapshotWorld(next.world))
    ensures next.previous ==
      if steps == 0 then g.previous
      else if steps == 1 then g.current
      else SnapshotWorld(Run(g.constraint, g.world, input, steps - 1))
    ensures var rendered := g.renderAccumulator + ClampDelta(now - g.last);
      if rendered >= TargetFrameMs then
        && frame == Some(BuildFrame(next.previous, next.current, next.accumulator / TargetFrameMs, next.world))
        && next.renderAccumulator == rendered - TargetFrameMs
      else
        frame == None && next.renderAccumulator == rendered
    ensures Consistent(g) && now >= g.last ==> Consistent(next)
  {
    var deltaMs := ClampDelta(now - g.last);
    var world, accumulator, previous, current;
    world, accumulator, steps, previous, current :=
      RunTicks(g.constraint, g.world, input, g.accumulator + deltaMs, g.previous, g.current);
    if g.accumulator < TargetFrameMs && steps > 0 {
      AtMostTwoTicks(g.accumulator, deltaMs, steps);
    }
    if Consistent(g) {
      TicksStayConsistent(g, input, steps);
    }
    if g.accumulator >= 0.0 && now >= g.last {
      BlendFactorInUnitRange(accumulator);
    }
    var renderAccumulator := g.renderAccumulator + deltaMs;
    if renderAccumulator >= TargetFrameMs {
      frame := Some(BuildFrame(previous, current, accumulator / TargetFrameMs, world));
      renderAccumulator := renderAccumulator - TargetFrameMs;
    } else {
      frame := None;
    }
    next := Game(world, g.constraint, now, accumulator, renderAccumulator, previous, current);
  }
}
