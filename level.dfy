/**
 * The arena: a rectangle on the ground plane that every walking entity is
 * clamped into, and the goal circle at its north end.
 */
module Level {
  import opened Geometry

  /** Radius of the goal circle the sheep are driven into. */
  const GOAL_RADIUS: real := 6.0

  /** `f32::clamp`; the engine panics when `lo > hi`, so that is excluded. */
  function Clamp(v: real, lo: real, hi: real): (r: real)
    requires lo <= hi
    ensures lo <= r <= hi
    ensures lo <= v <= hi ==> r == v
    ensures v < lo ==> r == lo
    ensures hi < v ==> r == hi
  {
    if v < lo then lo else if hi < v then hi else v
  }

  datatype LevelBounds = LevelBounds(max: Vec2, min: Vec2) {

    /** The corners are ordered in each component, as `clamp` requires. */
    predicate WellFormed() { min.x <= max.x && min.y <= max.y }

    predicate Contains(p: Vec2) { min.x <= p.x <= max.x && min.y <= p.y <= max.y }

    /** `LevelBounds::clamp_to_bounds`: each component clamped on its own. */
    function ClampToBounds(pos: Vec2): (r: Vec2)
      requires WellFormed()
      ensures Contains(r)
      ensures Contains(pos) ==> r == pos
    {
      Vec2(Clamp(pos.x, min.x, max.x), Clamp(pos.y, min.y, max.y))
    }
  }

  /** The bounds the level plugin installs. */
  const ARENA: LevelBounds := LevelBounds(Vec2(34.5, 9.5), Vec2(-34.5, -49.5))

  lemma ArenaWellFormed()
    ensures ARENA.WellFormed()
    ensures ARENA.Contains(ZERO)
  {
  }

  /** Clamping twice is clamping once. */
  lemma ClampIdempotent(b: LevelBounds, p: Vec2)
    requires b.WellFormed()
    ensures b.ClampToBounds(b.ClampToBounds(p)) == b.ClampToBounds(p)
  {
  }

  /** A point is left where it is exactly when it is inside the bounds. */
  lemma ClampFixesExactlyInside(b: LevelBounds, p: Vec2)
    requires b.WellFormed()
    ensures b.ClampToBounds(p) == p <==> b.Contains(p)
  {
  }

  /** The x of the result depends on the x of the input only, and likewise for y. */
  lemma ClampComponentwise(b: LevelBounds, p: Vec2, q: Vec2)
    requires b.WellFormed()
    ensures p.x == q.x ==> b.ClampToBounds(p).x == b.ClampToBounds(q).x
    ensures p.y == q.y ==> b.ClampToBounds(p).y == b.ClampToBounds(q).y
  {
  }

  /** No point of the bounds is nearer to `p`, axis by axis, than the clamped point. */
  lemma ClampIsNearest(b: LevelBounds, p: Vec2, q: Vec2)
    requires b.WellFormed() && b.Contains(q)
    ensures Abs(b.ClampToBounds(p).x - p.x) <= Abs(q.x - p.x)
    ensures Abs(b.ClampToBounds(p).y - p.y) <= Abs(q.y - p.y)
  {
  }

  function Abs(r: real): real { if r < 0.0 then -r else r }
}
