/** The extraction portal. It can only be switched on; nothing switches it off. */
module Portals {
  import opened Arcade

  class Portal {
    var active: bool
    var visible: bool
    var x: int
    var y: int
    var bodyEnabled: bool

    function Sprite(): Sprite
      reads this
    {
      Arcade.Sprite(active, visible, x, y, bodyEnabled)
    }

    constructor (x: int, y: int)
      ensures Sprite() == Arcade.Sprite(true, true, x, y, true)
    {
      active, visible := true, true;
      this.x, this.y := x, y;
      bodyEnabled := true;
    }

    method Spawn(x: int, y: int)
      modifies this
      ensures Sprite() == Shown(old(Sprite()), x, y)
    {
      active := true;
      visible := true;
      this.x, this.y := x, y;
      bodyEnabled := true;
    }
  }

  /** Spawning an already spawned portal only moves it: it stays active, visible and
      collidable. */
  method SpawnAgain(p: Portal, x1: int, y1: int, x2: int, y2: int)
    modifies p
    ensures p.Sprite() == Arcade.Sprite(true, true, x2, y2, true)
  {
    p.Spawn(x1, y1);
    p.Spawn(x2, y2);
  }
}
