/** A blood shard pickup: always worth one shard. */
module BloodShards {
  import opened Arcade

  class BloodShard {
    var active: bool
    var visible: bool
    var x: int
    var y: int
    var bodyEnabled: bool
    /** Shards carried; fixed at construction. */
    const value: int

    function Sprite(): Sprite
      reads this
    {
      Arcade.Sprite(active, visible, x, y, bodyEnabled)
    }

    constructor (x: int, y: int)
      ensures Sprite() == Arcade.Sprite(true, true, x, y, true)
      ensures value == 1
    {
      active, visible := true, true;
      this.x, this.y := x, y;
      bodyEnabled := true;
      value := 1;
    }

    method Spawn(x: int, y: int)
      modifies this
      ensures Sprite() == Shown(old(Sprite()), x, y)
    {
      active := true;
      visible := true;
      this.x, this.y := x, y;
      bodyEnabled := true;
    }

    method Collect()
      modifies this
      ensures Sprite() == Hidden(old(Sprite()))
    {
      active := false;
      visible := false;
      bodyEnabled := false;
    }
  }
}
