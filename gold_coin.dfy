/** A gold coin pickup whose worth is set on each spawn. */
module GoldCoins {
  import opened Arcade

  class GoldCoin {
    var active: bool
    var visible: bool
    var x: int
    var y: int
    var bodyEnabled: bool
    var value: int

    function Sprite(): Sprite
      reads this
    {
      Arcade.Sprite(active, visible, x, y, bodyEnabled)
    }

    constructor (x: int, y: int)
      ensures Sprite() == Arcade.Sprite(true, true, x, y, true)
      ensures value == 1
    {
      active, visible := true, true;
      this.x, this.y := x, y;
      bodyEnabled := true;
      value := 1;
    }

    method Spawn(x: int, y: int, value: int)
      modifies this
      ensures Sprite() == Shown(old(Sprite()), x, y)
      ensures this.value == value
    {
      active := true;
      visible := true;
      this.x, this.y := x, y;
      bodyEnabled := true;
      this.value := value;
    }

    method Collect()
      modifies this
      ensures Sprite() == Hidden(old(Sprite()))
      ensures value == old(value)
    {
      active := false;
      visible := false;
      bodyEnabled := false;
    }
  }
}
