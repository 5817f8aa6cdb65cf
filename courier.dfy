/** The courier: a friendly figure with a name label that appears for a limited time.
    Each appearance schedules a callback 30 seconds later that sends it away if it is
    still active. */
module Couriers {
  import opened Arcade

  /** Vertical offset of the name label above the courier. */
  const LABEL_OFFSET := 40

  class Courier {
    var active: bool
    var visible: bool
    var x: int
    var y: int
    var bodyEnabled: bool
    var labelX: int
    var labelY: int
    var labelVisible: bool
    /** The pending leave callbacks, oldest first, each tagged with the number of the
        spawn that scheduled it. All have the same delay, so they fall due in this order. */
    var timers: seq<nat>
    /** How many times the courier has been spawned. */
    var spawns: nat

    function Sprite(): Sprite
      reads this
    {
      Arcade.Sprite(active, visible, x, y, bodyEnabled)
    }

    constructor (x: int, y: int)
      ensures Sprite() == Arcade.Sprite(true, true, x, y, true)
      ensures labelX == x && labelY == y - LABEL_OFFSET && labelVisible
      ensures timers == [] && spawns == 0
    {
      active, visible := true, true;
      this.x, this.y := x, y;
      bodyEnabled := true;
      labelX, labelY := x, y - LABEL_OFFSET;
      labelVisible := true;
      timers := [];
      spawns := 0;
    }

    /** Show the courier and its label at (x, y) and schedule its departure. */
    method Spawn(x: int, y: int)
      modifies this
      ensures Sprite() == Shown(old(Sprite()), x, y)
      ensures labelX == x && labelY == y - LABEL_OFFSET && labelVisible
      ensures spawns == old(spawns) + 1 && timers == old(timers) + [spawns]
    {
      active := true;
      visible := true;
      this.x, this.y := x, y;
      labelX, labelY := x, y - LABEL_OFFSET;
      labelVisible := true;
      bodyEnabled := true;
      spawns := spawns + 1;
      timers := timers + [spawns];
    }

    /** Hide the courier and its label and disable its body. */
    method Leave()
      modifies this
      ensures Sprite() == Hidden(old(Sprite()))
      ensures !labelVisible && labelX == old(labelX) && labelY == old(labelY)
      ensures timers == old(timers) && spawns == old(spawns)
    {
      active := false;
      visible := false;
      labelVisible := false;
      bodyEnabled := false;
    }

    /** The oldest pending callback falls due: it sends the courier away if the courier
        is active, and does nothing else. It checks only `active`, not which spawn
        scheduled it. */
    method FireLeaveTimer()
      requires |timers| > 0
      modifies this
      ensures timers == old(timers)[1..] && spawns == old(spawns)
      ensures old(active) ==> Sprite() == Hidden(old(Sprite())) && !labelVisible
      ensures !old(active) ==> Sprite() == old(Sprite()) && labelVisible == old(labelVisible)
      ensures labelX == old(labelX) && labelY == old(labelY)
    {
      timers := timers[1..];
      if active {
        Leave();
      }
    }
  }

  /** Leaving twice is the same as leaving once. */
  method LeaveTwice(c: Courier)
    modifies c
    ensures c.Sprite() == Hidden(old(c.Sprite())) && !c.labelVisible
    ensures c.labelX == old(c.labelX) && c.labelY == old(c.labelY)
    ensures c.timers == old(c.timers) && c.spawns == old(c.spawns)
  {
    c.Leave();
    c.Leave();
  }

  /** A callback left over from an earlier appearance also removes a courier that has
      been spawned again since, long before the new appearance's own 30 seconds are up;
      the new appearance's callback is still pending afterwards. */
  method StaleTimerRemovesRespawn(c: Courier, x1: int, y1: int, x2: int, y2: int)
    requires c.timers == []
    modifies c
    ensures !c.active && !c.visible && !c.labelVisible
    ensures c.x == x2 && c.y == y2
    ensures c.timers == [c.spawns]
  {
    c.Spawn(x1, y1);
    c.Leave();
    c.Spawn(x2, y2);
    c.FireLeaveTimer();
  }
}
