/** A pooled enemy: a rectangle that walks towards the player at a fixed speed. */
module Enemies {
  import opened Options
  import opened Arcade

  /** Walking speed every enemy is given at construction. */
  const ENEMY_SPEED := 80

  class Enemy {
    var active: bool
    var visible: bool
    var x: int
    var y: int
    var bodyEnabled: bool
    var velocity: Velocity
    /** Walking speed; set once at construction. */
    const speed: int

    function Sprite(): Sprite
      reads this
    {
      Arcade.Sprite(active, visible, x, y, bodyEnabled)
    }

    /** A new game object is active and visible where it was created, and adding it to
        the physics world gives it an enabled, motionless body. */
    constructor (x: int, y: int)
      ensures Sprite() == Arcade.Sprite(true, true, x, y, true)
      ensures velocity == Still && speed == ENEMY_SPEED
    {
      active, visible := true, true;
      this.x, this.y := x, y;
      bodyEnabled := true;
      velocity := Still;
      speed := ENEMY_SPEED;
    }

    /** Called on each reuse from the pool: show the enemy at (x, y) and re-enable its
        body. The velocity is left as it was. */
    method Spawn(x: int, y: int)
      modifies this
      ensures Sprite() == Shown(old(Sprite()), x, y)
      ensures velocity == old(velocity)
    {
      active := true;
      visible := true;
      this.x, this.y := x, y;
      bodyEnabled := true;
    }

    /** Steer towards the player, unless this enemy is inactive or there is no player. */
    method Update(player: Option<Point>)
      modifies this
      ensures Sprite() == old(Sprite())
      ensures old(active) && player.Some? ==>
                velocity == Toward(player.value.x - x, player.value.y - y, speed)
      ensures !old(active) || player.None? ==> velocity == old(velocity)
    {
      if !active || player.None? {
        return;
      }
      velocity := Toward(player.value.x - x, player.value.y - y, speed);
    }

    /** Deactivate instead of destroying: hide, disable the body and stop it. */
    method Die()
      modifies this
      ensures Sprite() == Hidden(old(Sprite()))
      ensures velocity == Still
    {
      active := false;
      visible := false;
      bodyEnabled := false;
      velocity := Still;
    }
  }

  /** Killing twice leaves the same state as killing once, and a killed enemy can be
      spawned again in place: this is how the pool reuses its slots. */
  method DieTwiceThenRespawn(e: Enemy, x: int, y: int)
    modifies e
    ensures e.Sprite() == Arcade.Sprite(true, true, x, y, true)
    ensures e.velocity == Still
  {
    e.Die();
    ghost var once := e.Sprite();
    e.Die();
    assert e.Sprite() == once;
    e.Spawn(x, y);
  }
}
