/** The collision system: the player is pushed out of each static solid in
    turn, along the axis that needs the smaller correction. */
module Collision {
  import opened Geometry
  import opened Entities

  function Data(p: Player, s: Body): CollisionData {
    ComputeCollisionData(p.Box(), s.Box())
  }

  /** Resolving `s` pushes the player along X: the X overlap is strictly
      the smaller one. */
  predicate TakesXAxis(p: Player, s: Body) {
    var d := Data(p, s);
    d.overlaps && d.combinedHalfSize - d.absDx < d.combinedHalfSize - d.absDy
  }

  /** Resolving `s` pushes the player along Y; equal overlaps land here. */
  predicate TakesYAxis(p: Player, s: Body) {
    var d := Data(p, s);
    d.overlaps && !(d.combinedHalfSize - d.absDx < d.combinedHalfSize - d.absDy)
  }

  /** Resolving `s` pushes the player up onto the top of `s`. */
  predicate Lands(p: Player, s: Body) {
    TakesYAxis(p, s) && Data(p, s).dy < 0.0
  }

  /** One iteration of the resolver loop: push the player out of `s` by the
      smaller overlap, stopping its motion along that axis. */
  function ResolveSolid(p: Player, s: Body): (r: Player)
    ensures r.size == p.size && r.halfSize == p.halfSize
  {
    var d := Data(p, s);
    if d.overlaps then
      var overlapX := d.combinedHalfSize - d.absDx;
      var overlapY := d.combinedHalfSize - d.absDy;
      if overlapX < overlapY then
        p.(x := p.x + (if d.dx > 0.0 then overlapX else -overlapX), vx := 0.0)
      else
        var q := p.(y := p.y + (if d.dy > 0.0 then overlapY else -overlapY), vy := 0.0);
        if d.dy < 0.0 then q.(grounded := true) else q
    else
      p
  }

  /** A player that does not overlap `s` is left alone; one that does is
      left not overlapping `s`. */
  lemma ResolveSolidSeparates(p: Player, s: Body)
    ensures !Overlaps(p.Box(), s.Box()) ==> ResolveSolid(p, s) == p
    ensures !Overlaps(ResolveSolid(p, s).Box(), s.Box())
  {
  }

  /** The X branch moves only x and zeroes vx, leaving the player flush
      against the left or right face of `s`, on the side its centre was on. */
  lemma ResolveSolidAlongX(p: Player, s: Body)
    requires TakesXAxis(p, s)
    ensures var r := ResolveSolid(p, s);
      && r == p.(x := r.x, vx := 0.0)
      && r.x == (if p.x > s.x then s.x + (p.halfSize + s.halfSize) else s.x - (p.halfSize + s.halfSize))
  {
  }

  /** The Y branch moves only y, zeroes vy and may set grounded, leaving the
      player flush against the top or bottom face of `s`; it grounds the
      player exactly when the player's centre was above the solid's. */
  lemma ResolveSolidAlongY(p: Player, s: Body)
    requires TakesYAxis(p, s)
    ensures var r := ResolveSolid(p, s);
      && r == p.(y := r.y, vy := 0.0, grounded := r.grounded)
      && r.y == (if p.y > s.y then s.y + (p.halfSize + s.halfSize) else s.y - (p.halfSize + s.halfSize))
      && r.grounded == (p.grounded || p.y < s.y)
  {
  }

  /** Every overlap takes exactly one branch; a tie goes to Y. */
  lemma OverlapTakesOneAxis(p: Player, s: Body)
    ensures Overlaps(p.Box(), s.Box()) <==> TakesXAxis(p, s) || TakesYAxis(p, s)
    ensures !(TakesXAxis(p, s) && TakesYAxis(p, s))
    ensures var d := Data(p, s);
      d.overlaps && d.absDx == d.absDy ==> TakesYAxis(p, s)
  {
  }

  /** One resolution sets grounded exactly when it lands the player, and
      never clears it. */
  lemma ResolveSolidGrounded(p: Player, s: Body)
    ensures ResolveSolid(p, s).grounded <==> p.grounded || Lands(p, s)
  {
  }

  /** The resolver loop over `solids` in list order, starting from `p`. Each
      solid sees the position the earlier ones left; the player never
      overlaps the solid resolved last. */
  function ResolveAll(p: Player, solids: seq<Body>): (r: Player)
    ensures r.size == p.size && r.halfSize == p.halfSize
    ensures |solids| > 0 ==> !Overlaps(r.Box(), solids[|solids| - 1].Box())
    decreases |solids|
  {
    if |solids| == 0 then p
    else
      var q := ResolveAll(p, solids[..|solids| - 1]);
      ResolveSolidSeparates(q, solids[|solids| - 1]);
      ResolveSolid(q, solids[|solids| - 1])
  }

  /** Solid `solids[i]` lands the player that the earlier solids left. */
  predicate LandsAt(p: Player, solids: seq<Body>, i: int)
    requires 0 <= i < |solids|
  {
    Lands(ResolveAll(p, solids[..i]), solids[i])
  }

  /** The player is grounded after the loop exactly when it started grounded
      or some solid, met in list order, landed it. */
  lemma {:induction false} GroundedIffSomeLanding(p: Player, solids: seq<Body>)
    ensures ResolveAll(p, solids).grounded <==>
      p.grounded || exists i :: 0 <= i < |solids| && LandsAt(p, solids, i)
    decreases |solids|
  {
    if |solids| > 0 {
      var n := |solids| - 1;
      var init := solids[..n];
      GroundedIffSomeLanding(p, init);
      var q := ResolveAll(p, init);
      assert ResolveAll(p, solids) == ResolveSolid(q, solids[n]);
      ResolveSolidGrounded(q, solids[n]);
      assert solids[..n] == init;
      assert LandsAt(p, solids, n) == Lands(q, solids[n]);
      forall i | 0 <= i < n
        ensures LandsAt(p, init, i) == LandsAt(p, solids, i)
      {
        assert init[..i] == solids[..i];
      }
    }
  }

  /** The collision system's update: clear grounded, then resolve every
      solid. Only position, velocity and grounded change, and the player
      ends clear of the solid resolved last. */
  function Collide(p: Player, solids: seq<Body>): (r: Player)
    ensures r == p.(x := r.x, y := r.y, vx := r.vx, vy := r.vy, grounded := r.grounded)
    ensures |solids| > 0 ==> !Overlaps(r.Box(), solids[|solids| - 1].Box())
  {
    ResolveAll(p.(grounded := false), solids)
  }

  /** After the collision update the player is grounded exactly when some
      solid, met in list order, landed it; grounded from before never
      survives. */
  lemma CollideGroundedIffLanded(p: Player, solids: seq<Body>)
    ensures Collide(p, solids).grounded <==>
      exists i :: 0 <= i < |solids| && LandsAt(p.(grounded := false), solids, i)
  {
    GroundedIffSomeLanding(p.(grounded := false), solids);
  }

  /** Resolving a list of two solids is resolving the first, then the second. */
  lemma ResolveAllOfTwo(p: Player, a: Body, b: Body)
    ensures ResolveAll(p, [a, b]) == ResolveSolid(ResolveSolid(p, a), b)
  {
    assert [a, b][..1] == [a];
    assert [a][..0] == [];
    assert ResolveAll(p, [a]) == ResolveSolid(p, a);
  }

  /** The resolver loop visits the solids head first: resolving `[s] + rest`
      is resolving `s`, then resolving `rest` from where `s` left the player. */
  lemma {:induction false} ResolveAllHeadFirst(p: Player, s: Body, rest: seq<Body>)
    ensures ResolveAll(p, [s] + rest) == ResolveAll(ResolveSolid(p, s), rest)
    decreases |rest|
  {
    var all := [s] + rest;
    if |rest| == 0 {
      assert all == [s];
      assert all[..0] == [];
    } else {
      var n := |rest| - 1;
      assert all[..|all| - 1] == [s] + rest[..n];
      assert all[|all| - 1] == rest[n];
      ResolveAllHeadFirst(p, s, rest[..n]);
    }
  }

  /** Resolution is sequential, not simultaneous, so the player is only
      guaranteed clear of the last solid. A player whose bottom edge only
      touches `b` and who overlaps `a` by half its half size is lifted onto
      `a`, then pushed straight back into `a` by `b`. */
  lemma SequentialResolutionCanReenterEarlierSolid(p: Player, a: Body, b: Body)
    requires p.halfSize > 0.0
    requires a == Body(p.x, p.y + 1.5 * p.halfSize, 2.0 * p.halfSize, p.halfSize)
    requires b == Body(p.x, p.y - 2.0 * p.halfSize, 2.0 * p.halfSize, p.halfSize)
    ensures !Overlaps(p.Box(), b.Box())
    ensures Overlaps(p.Box(), a.Box())
    ensures ResolveAll(p, [a, b]).y == p.y
    ensures Overlaps(ResolveAll(p, [a, b]).Box(), a.Box())
  {
    var h := p.halfSize;
    ResolveAllOfTwo(p, a, b);
    assert Data(p, a).dy == -1.5 * h;
    var q := ResolveSolid(p, a);
    assert q.x == p.x && q.y == p.y - 0.5 * h && q.halfSize == h;
    assert Data(q, b).dy == 1.5 * h;
    var r := ResolveSolid(q, b);
    assert r.x == p.x && r.y == p.y && r.halfSize == h;
  }
}
