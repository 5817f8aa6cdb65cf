/** A pooled bullet: fired from the player towards an enemy, removed when it leaves the
    world. */
module Projectiles {
  import opened Arcade
  import opened Enemies

  /** Flight speed every bullet is given at construction. */
  const PROJECTILE_SPEED := 400

  class Projectile {
    var active: bool
    var visible: bool
    var x: int
    var y: int
    var bodyEnabled: bool
    var velocity: Velocity
    /** Flight speed; set once at construction. */
    const speed: int

    function Sprite(): Sprite
      reads this
    {
      Arcade.Sprite(active, visible, x, y, bodyEnabled)
    }

    constructor (x: int, y: int)
      ensures Sprite() == Arcade.Sprite(true, true, x, y, true)
      ensures velocity == Still && speed == PROJECTILE_SPEED
    {
      active, visible := true, true;
      this.x, this.y := x, y;
      bodyEnabled := true;
      velocity := Still;
      speed := PROJECTILE_SPEED;
    }

    /** Show the bullet at (x, y) and send it towards the target's current position. */
    method Fire(x: int, y: int, target: Enemy)
      modifies this
      ensures Sprite() == Shown(old(Sprite()), x, y)
      ensures velocity == Toward(target.x - x, target.y - y, speed)
    {
      active := true;
      visible := true;
      this.x, this.y := x, y;
      bodyEnabled := true;
      velocity := Toward(target.x - x, target.y - y, speed);
    }

    method Die()
      modifies this
      ensures Sprite() == Hidden(old(Sprite()))
      ensures velocity == Still
    {
      active := false;
      visible := false;
      bodyEnabled := false;
      velocity := Still;
    }

    /** The per-frame bounds check: a bullet outside the world dies; one inside it
        (boundary included) is left exactly as it was. */
    method Update()
      modifies this
      ensures OutOfWorld(old(x), old(y)) ==> Sprite() == Hidden(old(Sprite())) && velocity == Still
      ensures !OutOfWorld(old(x), old(y)) ==> Sprite() == old(Sprite()) && velocity == old(velocity)
      ensures active <==> old(active) && !OutOfWorld(x, y)
    {
      if x < 0 || x > WORLD_WIDTH || y < 0 || y > WORLD_HEIGHT {
        Die();
      }
    }
  }
}
