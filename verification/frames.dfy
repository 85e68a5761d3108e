/** The render-side view of the world: the frame the renderer draws, with the
    player's position blended between the last two simulation ticks. */
module Frames {
  import opened Geometry
  import opened Entities

  /** Linear interpolation from `start` (alpha 0) toward `end` (alpha 1). */
  function Interpolate(start: real, end: real, alpha: real): (r: real)
    ensures alpha == 0.0 ==> r == start
    ensures alpha == 1.0 ==> r == end
  {
    start + (end - start) * alpha
  }

  /** A fraction of a span lies between zero and the span. */
  lemma FractionOfSpan(span: real, alpha: real)
    requires 0.0 <= alpha <= 1.0
    ensures span >= 0.0 ==> 0.0 <= span * alpha <= span
    ensures span <= 0.0 ==> span <= span * alpha <= 0.0
  {
    if span >= 0.0 {
      assert span * alpha <= span * 1.0;
    } else {
      assert span * alpha >= span * 1.0;
    }
  }

  /** For alpha in [0, 1] the interpolated value lies between the endpoints. */
  lemma InterpolateBetween(start: real, end: real, alpha: real)
    requires 0.0 <= alpha <= 1.0
    ensures Min(start, end) <= Interpolate(start, end, alpha) <= Max(start, end)
  {
    var span := end - start;
    FractionOfSpan(span, alpha);
    assert Interpolate(start, end, alpha) == start + span * alpha;
    if start <= end {
      assert 0.0 <= span * alpha <= span;
    } else {
      assert span <= span * alpha <= 0.0;
    }
  }

  /** Interpolation is the weighted mean of its endpoints. */
  lemma InterpolateIsWeightedMean(start: real, end: real, alpha: real)
    ensures Interpolate(start, end, alpha) == (1.0 - alpha) * start + alpha * end
  {
  }

  /** What the renderer draws: the level's dimensions, the won flag, and a
      copy of every body with the player at its interpolated position. */
  datatype Frame = Frame(
    renderWidth: real,
    renderHeight: real,
    isWon: bool,
    goal: Body,
    solids: seq<Body>,
    player: Body)

  /** The frame for blend factor `alpha` between snapshot `previous` and
      snapshot `current` of `w`. */
  function BuildFrame(previous: Snapshot, current: Snapshot, alpha: real, w: World): (f: Frame)
    ensures f.renderWidth == w.width && f.renderHeight == w.height && f.isWon == w.isWon
    ensures f.goal == w.goal && f.solids == w.solids
    ensures f.player.size == w.player.size && f.player.halfSize == w.player.halfSize
    ensures alpha == 0.0 ==> f.player.x == previous.player.x && f.player.y == previous.player.y
    ensures alpha == 1.0 ==> f.player.x == current.player.x && f.player.y == current.player.y
    ensures f.player.x == (1.0 - alpha) * previous.player.x + alpha * current.player.x
    ensures f.player.y == (1.0 - alpha) * previous.player.y + alpha * current.player.y
  {
    InterpolateIsWeightedMean(previous.player.x, current.player.x, alpha);
    InterpolateIsWeightedMean(previous.player.y, current.player.y, alpha);
    Frame(
      w.width,
      w.height,
      w.isWon,
      w.goal,
      w.solids,
      Body(Interpolate(previous.player.x, current.player.x, alpha),
           Interpolate(previous.player.y, current.player.y, alpha),
           w.player.size,
           w.player.halfSize))
  }

  /** For alpha in [0, 1] the drawn player lies in the box spanned by the two
      snapshots. */
  lemma FramePlayerBetweenSnapshots(previous: Snapshot, current: Snapshot, alpha: real, w: World)
    requires 0.0 <= alpha <= 1.0
    ensures var f := BuildFrame(previous, current, alpha, w);
      && Min(previous.player.x, current.player.x) <= f.player.x <= Max(previous.player.x, current.player.x)
      && Min(previous.player.y, current.player.y) <= f.player.y <= Max(previous.player.y, current.player.y)
  {
    InterpolateBetween(previous.player.x, current.player.x, alpha);
    InterpolateBetween(previous.player.y, current.player.y, alpha);
  }
}
