/** The parts of the Phaser arcade world the core relies on: the world size, the
    state every pooled game object shares, a symbolic velocity and the distance
    measure used for targeting. */
module Arcade {

  /** World size (the game configuration's width and height). */
  const WORLD_WIDTH := 1280
  const WORLD_HEIGHT := 720

  datatype Point = Point(x: int, y: int)

  /** True when a position lies outside the world rectangle; the boundary itself
      counts as inside. */
  predicate OutOfWorld(x: int, y: int)
    ensures OutOfWorld(x, y) <==> !(0 <= x <= WORLD_WIDTH && 0 <= y <= WORLD_HEIGHT)
  {
    x < 0 || x > WORLD_WIDTH || y < 0 || y > WORLD_HEIGHT
  }

  /** The boundary of the world is inside it, and one step past any edge is outside. */
  lemma BoundaryIsInside(x: int, y: int)
    requires 0 <= x <= WORLD_WIDTH && 0 <= y <= WORLD_HEIGHT
    ensures !OutOfWorld(x, y)
    ensures OutOfWorld(-1, y) && OutOfWorld(WORLD_WIDTH + 1, y)
    ensures OutOfWorld(x, -1) && OutOfWorld(x, WORLD_HEIGHT + 1)
  {
  }

  /** A body's velocity, kept symbolic because the library computes it in floating point:
      - `Still` is the zero vector;
      - `Toward(dx, dy, speed)` is what `moveToObject` sets: magnitude `speed` along the
        angle of the offset (dx, dy) from the mover to its target;
      - `Scaled(dx, dy, speed)` is `setVelocity(dx, dy)` followed by
        `normalize().scale(speed)`. */
  datatype Velocity = Still | Toward(dx: int, dy: int, speed: int) | Scaled(dx: int, dy: int, speed: int)

  /** The state every pooled rectangle shares: the `active` and `visible` flags, the
      position and whether its physics body takes part in collisions. */
  datatype Sprite = Sprite(active: bool, visible: bool, x: int, y: int, bodyEnabled: bool)

  /** The effect of `setActive(true)`, `setVisible(true)`, `setPosition(x, y)` and
      `body.enable = true`. */
  function Shown(s: Sprite, x: int, y: int): (r: Sprite)
    ensures r.active && r.visible && r.bodyEnabled
    ensures r.x == x && r.y == y
  {
    Sprite(true, true, x, y, true)
  }

  /** The effect of `setActive(false)`, `setVisible(false)` and `body.enable = false`;
      the position is kept. */
  function Hidden(s: Sprite): (r: Sprite)
    ensures !r.active && !r.visible && !r.bodyEnabled
    ensures r.x == s.x && r.y == s.y
  {
    s.(active := false, visible := false, bodyEnabled := false)
  }

  /** Deactivating twice is the same as deactivating once. */
  lemma HiddenIdempotent(s: Sprite)
    ensures Hidden(Hidden(s)) == Hidden(s)
  {
  }

  /** Showing a deactivated object brings the same slot back, wherever it was left:
      the result depends only on the new position. */
  lemma ShownAfterHidden(s: Sprite, x: int, y: int)
    ensures Shown(Hidden(s), x, y) == Shown(s, x, y)
  {
  }

  /** Squared Euclidean distance: it orders pairs of points exactly as the distance does,
      without a square root. */
  function SqDistance(a: Point, b: Point): (r: nat)
    ensures r == 0 <==> a == b
  {
    var dx := b.x - a.x;
    var dy := b.y - a.y;
    SquareNonNeg(dx);
    SquareNonNeg(dy);
    SquarePositive(dx);
    SquarePositive(dy);
    dx * dx + dy * dy
  }

  lemma SquareNonNeg(d: int)
    ensures d * d >= 0
  {
    if d < 0 {
      assert d * d == (-d) * (-d);
    }
  }

  lemma SquarePositive(d: int)
    ensures d != 0 ==> d * d > 0
  {
    if d < 0 {
      assert d * d == (-d) * (-d);
    }
  }
}
