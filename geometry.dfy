/** The game's tuning constants and the axis-aligned bounding boxes that every
    collision test in the simulation uses. Coordinates are exact reals: the
    model does not reproduce floating-point rounding. */
module Geometry {

  const CANVAS_WIDTH: real := 1280.0
  const CANVAS_HEIGHT: real := 720.0
  const GRAVITY: real := 3.0
  const FRICTION: real := 0.8
  const PLAYER_SPEED: real := 4.0
  const PLAYER_MAX_SPEED: real := 35.0
  const JUMP_FORCE: real := 25.0

  /** Position of the top-left corner and size of an entity. */
  datatype Box = Box(x: real, y: real, width: real, height: real)

  /** The strict overlap test the game uses for platforms, enemies and the
      goal: boxes that only share an edge do not overlap. */
  predicate Overlaps(a: Box, b: Box)
    ensures Overlaps(a, b) ==> a.width + b.width > 0.0 && a.height + b.height > 0.0
  {
    a.x < b.x + b.width && a.x + a.width > b.x &&
    a.y < b.y + b.height && a.y + a.height > b.y
  }

  /** The point (px, py) lies strictly inside the box. */
  predicate Inside(a: Box, px: real, py: real)
  {
    a.x < px < a.x + a.width && a.y < py < a.y + a.height
  }

  /** For boxes of positive size the overlap test means what it says: the
      boxes overlap exactly when some point lies strictly inside both. */
  lemma OverlapsIffSharedPoint(a: Box, b: Box)
    requires a.width > 0.0 && a.height > 0.0 && b.width > 0.0 && b.height > 0.0
    ensures Overlaps(a, b) <==> exists px, py :: Inside(a, px, py) && Inside(b, px, py)
  {
    if Overlaps(a, b) {
      var lo := if a.x < b.x then b.x else a.x;
      var hi := if a.x + a.width < b.x + b.width then a.x + a.width else b.x + b.width;
      var bottom := if a.y < b.y then b.y else a.y;
      var top := if a.y + a.height < b.y + b.height then a.y + a.height else b.y + b.height;
      assert Inside(a, (lo + hi) / 2.0, (bottom + top) / 2.0) && Inside(b, (lo + hi) / 2.0, (bottom + top) / 2.0);
    }
  }

  /** Appending is associative; the loops that extend a sequence one
      element at a time rely on it. */
  lemma ConcatAssoc<T>(a: seq<T>, b: seq<T>, c: seq<T>)
    ensures a + b + c == a + (b + c)
  {
  }

  /** A source of uniform draws, as Math.random delivers them: every draw
      lies in [0, 1). */
  ghost predicate IsUnitSource(rand: nat -> real)
  {
    forall n: nat :: 0.0 <= rand(n) < 1.0
  }
}
