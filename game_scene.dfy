/** The run scene: the player, a pool of enemies and a pool of bullets, the two
    periodic callbacks (spawn an enemy, shoot at the nearest enemy), the two overlap
    handlers and the per-frame update. */
module Game {
  import opened Options
  import opened Arcade
  import opened Pool
  import opened Enemies
  import opened Projectiles

  /** Player speed in pixels per second. */
  const PLAYER_SPEED := 250
  /** Enemies enter just outside the left or the right edge. */
  const SPAWN_LEFT_X := -50
  const SPAWN_RIGHT_X := 1330
  /** Where the player starts. */
  const PLAYER_START := Point(640, 360)

  /** The keys read each frame: the arrow keys and W, A, S, D. */
  datatype Keys = Keys(
    arrowLeft: bool, arrowRight: bool, arrowUp: bool, arrowDown: bool,
    keyA: bool, keyD: bool, keyW: bool, keyS: bool)

  /** One axis of the movement intent: the negative direction wins when both are held. */
  function AxisVelocity(negative: bool, positive: bool): (v: int)
    ensures v == -PLAYER_SPEED <==> negative
    ensures v == PLAYER_SPEED <==> !negative && positive
    ensures v == 0 <==> !negative && !positive
  {
    if negative then -PLAYER_SPEED else if positive then PLAYER_SPEED else 0
  }

  /** The velocity asked of the player's body: the two axes, before the library scales
      the vector to the player's speed. */
  function Intent(keys: Keys): (v: (int, int))
    ensures v.0 == -PLAYER_SPEED <==> keys.arrowLeft || keys.keyA
    ensures v.0 == PLAYER_SPEED <==> !(keys.arrowLeft || keys.keyA) && (keys.arrowRight || keys.keyD)
    ensures v.0 == 0 <==> !(keys.arrowLeft || keys.keyA || keys.arrowRight || keys.keyD)
    ensures v.1 == -PLAYER_SPEED <==> keys.arrowUp || keys.keyW
    ensures v.1 == PLAYER_SPEED <==> !(keys.arrowUp || keys.keyW) && (keys.arrowDown || keys.keyS)
    ensures v.1 == 0 <==> !(keys.arrowUp || keys.keyW || keys.arrowDown || keys.keyS)
  {
    var vx := AxisVelocity(keys.arrowLeft || keys.keyA, keys.arrowRight || keys.keyD);
    var vy := AxisVelocity(keys.arrowUp || keys.keyW, keys.arrowDown || keys.keyS);
    (vx, vy)
  }

  /** The x coordinate of a new enemy, from a uniform draw in [0, 1): the left edge when
      the draw exceeds one half, the right edge otherwise. */
  function SpawnSide(roll: real): (x: int)
    ensures x == SPAWN_LEFT_X || x == SPAWN_RIGHT_X
    ensures x == SPAWN_LEFT_X <==> roll > 0.5
  {
    if roll > 0.5 then SPAWN_LEFT_X else SPAWN_RIGHT_X
  }

  /** The target `getNearestEnemy` settles on after visiting the first `n` slots: it keeps
      the closest active enemy seen so far and replaces it only by a strictly closer one.
      `active[i]` and `dist[i]` are slot `i`'s flag and squared distance to the player. */
  function NearestAmong(active: seq<bool>, dist: seq<nat>, n: nat): (r: Option<nat>)
    requires n <= |active| == |dist|
    ensures r.None? <==> forall j :: 0 <= j < n ==> !active[j]
    ensures r.Some? ==> r.value < n && active[r.value]
    ensures r.Some? ==> forall j :: 0 <= j < n && active[j] ==> dist[r.value] <= dist[j]
    ensures r.Some? ==> forall j :: 0 <= j < r.value && active[j] ==> dist[r.value] < dist[j]
  {
    if n == 0 then None
    else
      var best := NearestAmong(active, dist, n - 1);
      if active[n - 1] && (best.None? || dist[n - 1] < dist[best.value]) then Some(n - 1)
      else best
  }

  /** What a pool slot holds between frames: the member's sprite state and its velocity
      (every other field of a member is fixed at construction). */
  datatype Slot = Slot(sprite: Sprite, velocity: Velocity)

  /** The `active` flags of a run of slots. */
  function ActiveFlags(ss: seq<Slot>): (flags: seq<bool>)
    ensures |flags| == |ss|
    ensures forall i :: 0 <= i < |ss| ==> flags[i] == ss[i].sprite.active
  {
    seq(|ss|, i requires 0 <= i < |ss| => ss[i].sprite.active)
  }

  /** A group's `get` followed by what the caller does with the member it hands out:
      `revive` is applied to the first inactive slot; when every slot is active nothing
      changes. */
  function Reuse(ss: seq<Slot>, revive: Slot -> Slot): (r: seq<Slot>)
    ensures |r| == |ss|
    ensures forall i :: 0 <= i < |ss| && r[i] != ss[i] ==>
              && !ss[i].sprite.active
              && (forall j :: 0 <= j < i ==> ss[j].sprite.active)
              && r[i] == revive(ss[i])
    ensures forall i, j :: 0 <= i < j < |ss| && r[i] != ss[i] ==> r[j] == ss[j]
  {
    match FirstInactive(ActiveFlags(ss))
    case None => ss
    case Some(k) => ss[k := revive(ss[k])]
  }

  /** Enemy `spawn(x, y)`: shown at (x, y), velocity left as it was. */
  function Spawned(x: int, y: int): (revive: Slot -> Slot)
    ensures forall s :: revive(s).sprite == Sprite(true, true, x, y, true) && revive(s).velocity == s.velocity
  {
    (s: Slot) => Slot(Shown(s.sprite, x, y), s.velocity)
  }

  /** Bullet `fire(x, y, target)` with the target at (tx, ty): shown at (x, y) and sent
      towards the target. */
  function Fired(x: int, y: int, tx: int, ty: int): (revive: Slot -> Slot)
    ensures forall s :: revive(s).sprite == Sprite(true, true, x, y, true)
    ensures forall s :: revive(s).velocity == Toward(tx - x, ty - y, PROJECTILE_SPEED)
  {
    (s: Slot) => Slot(Shown(s.sprite, x, y), Toward(tx - x, ty - y, PROJECTILE_SPEED))
  }

  /** Reuse serves the first free slot and no other: with every slot busy the group is
      unchanged; otherwise exactly the first inactive slot is revived. */
  lemma ReuseTakesFirstFree(ss: seq<Slot>, revive: Slot -> Slot)
    ensures (forall i :: 0 <= i < |ss| ==> ss[i].sprite.active) ==> Reuse(ss, revive) == ss
    ensures forall k :: 0 <= k < |ss| && !ss[k].sprite.active && (forall j :: 0 <= j < k ==> ss[j].sprite.active) ==>
              Reuse(ss, revive) == ss[k := revive(ss[k])]
  {
    var flags := ActiveFlags(ss);
    if r :| 0 <= r < |ss| && !ss[r].sprite.active {
      assert !flags[r];
    }
  }

  /** When the revived member is active, reuse adds exactly one active member if a slot
      was free and none otherwise, so the group never holds more than its size. */
  lemma ReuseCount(ss: seq<Slot>, revive: Slot -> Slot)
    requires forall k :: 0 <= k < |ss| ==> revive(ss[k]).sprite.active
    ensures var after := CountActive(ActiveFlags(Reuse(ss, revive)));
      && after == CountActive(ActiveFlags(ss)) + (if FirstInactive(ActiveFlags(ss)).Some? then 1 else 0)
      && after <= |ss|
  {
    var flags := ActiveFlags(ss);
    AcquireWithinCapacity(flags);
    match FirstInactive(flags)
    case None =>
    case Some(k) =>
      assert ActiveFlags(Reuse(ss, revive)) == flags[k := true];
  }

  /** Enemy `update` with the player at (px, py): an active enemy heads for the player at
      the enemy speed; an inactive one is left as it was. */
  function Steered(s: Slot, px: int, py: int): (r: Slot)
    ensures r.sprite == s.sprite
    ensures s.sprite.active ==> r.velocity == Toward(px - s.sprite.x, py - s.sprite.y, ENEMY_SPEED)
    ensures !s.sprite.active ==> r == s
  {
    if s.sprite.active then Slot(s.sprite, Toward(px - s.sprite.x, py - s.sprite.y, ENEMY_SPEED))
    else s
  }

  /** The enemy pass of a frame: every slot steered, in place. */
  function SteerAll(ss: seq<Slot>, px: int, py: int): (r: seq<Slot>)
    ensures |r| == |ss|
    ensures forall i :: 0 <= i < |ss| ==> r[i] == Steered(ss[i], px, py)
  {
    seq(|ss|, i requires 0 <= i < |ss| => Steered(ss[i], px, py))
  }

  /** Steering moves nothing and switches nothing on or off: only velocities change, and
      afterwards every active enemy is heading for the player. */
  lemma SteerAllKeepsSprites(ss: seq<Slot>, px: int, py: int)
    ensures forall i :: 0 <= i < |ss| ==> SteerAll(ss, px, py)[i].sprite == ss[i].sprite
    ensures ActiveFlags(SteerAll(ss, px, py)) == ActiveFlags(ss)
    ensures forall i :: 0 <= i < |ss| && ss[i].sprite.active ==>
              SteerAll(ss, px, py)[i].velocity == Toward(px - ss[i].sprite.x, py - ss[i].sprite.y, ENEMY_SPEED)
  {
    assert forall i :: 0 <= i < |ss| ==> ActiveFlags(SteerAll(ss, px, py))[i] == ActiveFlags(ss)[i];
  }

  /** `die()` on an enemy or a bullet: switched off where it stands and stopped. */
  function Removed(s: Slot): (r: Slot)
    ensures !r.sprite.active && r.velocity == Still
    ensures r.sprite.x == s.sprite.x && r.sprite.y == s.sprite.y
  {
    Slot(Hidden(s.sprite), Still)
  }

  /** A hit that removes an active member of a group lowers that group's active count by
      exactly one, so a bullet hitting an enemy frees one slot in each group and an
      enemy touching the player frees one enemy slot. */
  lemma RemovedCount(ss: seq<Slot>, k: nat)
    requires k < |ss| && ss[k].sprite.active
    ensures CountActive(ActiveFlags(ss[k := Removed(ss[k])])) + 1 == CountActive(ActiveFlags(ss))
  {
    assert ActiveFlags(ss[k := Removed(ss[k])]) == ActiveFlags(ss)[k := false];
    CountAfterDeactivate(ActiveFlags(ss), k);
  }

  /** Bullet `update`: an active bullet outside the world is removed and stopped; every
      other bullet is left as it was. */
  function Culled(s: Slot): (r: Slot)
    ensures r.sprite.active ==> !OutOfWorld(r.sprite.x, r.sprite.y) && r == s
    ensures !(s.sprite.active && OutOfWorld(s.sprite.x, s.sprite.y)) ==> r == s
    ensures r.sprite.x == s.sprite.x && r.sprite.y == s.sprite.y
  {
    if s.sprite.active && OutOfWorld(s.sprite.x, s.sprite.y) then Removed(s)
    else s
  }

  /** The bullet pass of a frame: every slot checked against the world bounds. */
  function CullAll(ss: seq<Slot>): (r: seq<Slot>)
    ensures |r| == |ss|
    ensures forall i :: 0 <= i < |ss| ==> r[i] == Culled(ss[i])
  {
    seq(|ss|, i requires 0 <= i < |ss| => Culled(ss[i]))
  }

  /** After the bullet pass no active bullet lies outside the world, bullets inside it
      (or already inactive) are untouched, no bullet is switched on, the active count
      does not grow and a second pass changes nothing. */
  lemma CullAllLeavesNoStray(ss: seq<Slot>)
    ensures forall i :: 0 <= i < |ss| && CullAll(ss)[i].sprite.active ==>
              !OutOfWorld(CullAll(ss)[i].sprite.x, CullAll(ss)[i].sprite.y)
    ensures forall i :: 0 <= i < |ss| && !(ss[i].sprite.active && OutOfWorld(ss[i].sprite.x, ss[i].sprite.y)) ==>
              CullAll(ss)[i] == ss[i]
    ensures forall i :: 0 <= i < |ss| && CullAll(ss)[i].sprite.active ==> ss[i].sprite.active
    ensures CountActive(ActiveFlags(CullAll(ss))) <= CountActive(ActiveFlags(ss))
    ensures CullAll(CullAll(ss)) == CullAll(ss)
  {
    CountMonotone(ActiveFlags(CullAll(ss)), ActiveFlags(ss));
  }

  /** A group of `ENEMY_CAPACITY` slots, none active. A slot stands for a member the group
      has not created yet or one that was switched off: no handler tells them apart. */
  method NewEnemyPool() returns (es: array<Enemy>)
    ensures fresh(es) && es.Length == ENEMY_CAPACITY
    ensures forall j :: 0 <= j < es.Length ==> !es[j].active && es[j].speed == ENEMY_SPEED
    ensures forall j, k :: 0 <= j < es.Length && 0 <= k < es.Length && j != k ==> es[j] != es[k]
  {
    var e0 := new Enemy(0, 0);
    e0.Die();
    es := new Enemy[ENEMY_CAPACITY](_ => e0);
    for i := 1 to ENEMY_CAPACITY
      invariant forall j :: 0 <= j < i ==> !es[j].active && es[j].speed == ENEMY_SPEED
      invariant forall j, k :: 0 <= j < i && 0 <= k < i && j != k ==> es[j] != es[k]
    {
      var e := new Enemy(0, 0);
      e.Die();
      es[i] := e;
    }
  }

  /** A group of `PROJECTILE_CAPACITY` slots, none active. */
  method NewProjectilePool() returns (bs: array<Projectile>)
    ensures fresh(bs) && bs.Length == PROJECTILE_CAPACITY
    ensures forall j :: 0 <= j < bs.Length ==> !bs[j].active && bs[j].speed == PROJECTILE_SPEED
    ensures forall j, k :: 0 <= j < bs.Length && 0 <= k < bs.Length && j != k ==> bs[j] != bs[k]
  {
    var b0 := new Projectile(0, 0);
    b0.Die();
    bs := new Projectile[PROJECTILE_CAPACITY](_ => b0);
    for i := 1 to PROJECTILE_CAPACITY
      invariant forall j :: 0 <= j < i ==> !bs[j].active && bs[j].speed == PROJECTILE_SPEED
      invariant forall j, k :: 0 <= j < i && 0 <= k < i && j != k ==> bs[j] != bs[k]
    {
      var b := new Projectile(0, 0);
      b.Die();
      bs[i] := b;
    }
  }

  class GameScene {
    var playerX: int
    var playerY: int
    var playerVelocity: Velocity
    /** The enemy group: its slots in order, each a reusable enemy. */
    const enemies: array<Enemy>
    /** The bullet group. */
    const projectiles: array<Projectile>

    /** The groups have their fixed capacities, no object sits in two slots and every
        member moves at its kind's speed. */
    ghost predicate Valid()
      reads enemies, projectiles
    {
      && enemies.Length == ENEMY_CAPACITY
      && projectiles.Length == PROJECTILE_CAPACITY
      && (forall i, j :: 0 <= i < enemies.Length && 0 <= j < enemies.Length && i != j ==> enemies[i] != enemies[j])
      && (forall i, j :: 0 <= i < projectiles.Length && 0 <= j < projectiles.Length && i != j ==> projectiles[i] != projectiles[j])
      && (forall i :: 0 <= i < enemies.Length ==> enemies[i].speed == ENEMY_SPEED)
      && (forall i :: 0 <= i < projectiles.Length ==> projectiles[i].speed == PROJECTILE_SPEED)
    }

    function EnemySet(): set<Enemy>
      reads enemies
    {
      set i | 0 <= i < enemies.Length :: enemies[i]
    }

    function ProjectileSet(): set<Projectile>
      reads projectiles
    {
      set i | 0 <= i < projectiles.Length :: projectiles[i]
    }

    /** The state of every enemy slot, in slot order. */
    function EnemySlots(): (ss: seq<Slot>)
      reads enemies, EnemySet()
      ensures |ss| == enemies.Length
      ensures forall i :: 0 <= i < enemies.Length ==> ss[i] == Slot(enemies[i].Sprite(), enemies[i].velocity)
    {
      seq(enemies.Length, i requires 0 <= i < enemies.Length reads enemies, EnemySet() =>
        Slot(enemies[i].Sprite(), enemies[i].velocity))
    }

    /** The state of every bullet slot, in slot order. */
    function BulletSlots(): (ss: seq<Slot>)
      reads projectiles, ProjectileSet()
      ensures |ss| == projectiles.Length
      ensures forall i :: 0 <= i < projectiles.Length ==> ss[i] == Slot(projectiles[i].Sprite(), projectiles[i].velocity)
    {
      seq(projectiles.Length, i requires 0 <= i < projectiles.Length reads projectiles, ProjectileSet() =>
        Slot(projectiles[i].Sprite(), projectiles[i].velocity))
    }

    /** The `active` flags of the enemy slots, in slot order. */
    function EnemyFlags(): (flags: seq<bool>)
      reads enemies, EnemySet()
      ensures |flags| == enemies.Length
      ensures forall i :: 0 <= i < enemies.Length ==> flags[i] == enemies[i].active
    {
      ActiveFlags(EnemySlots())
    }

    /** The `active` flags of the bullet slots, in slot order. */
    function ProjectileFlags(): (flags: seq<bool>)
      reads projectiles, ProjectileSet()
      ensures |flags| == projectiles.Length
      ensures forall i :: 0 <= i < projectiles.Length ==> flags[i] == projectiles[i].active
    {
      ActiveFlags(BulletSlots())
    }

    /** Squared distance from the player to each enemy slot, in slot order. */
    function EnemyDistances(): (dist: seq<nat>)
      reads this, enemies, EnemySet()
      ensures |dist| == enemies.Length
      ensures forall i :: 0 <= i < enemies.Length ==>
                dist[i] == SqDistance(Point(playerX, playerY), Point(enemies[i].x, enemies[i].y))
    {
      seq(enemies.Length, i requires 0 <= i < enemies.Length reads this, enemies, EnemySet() =>
        SqDistance(Point(playerX, playerY), Point(enemies[i].x, enemies[i].y)))
    }

    /** The slot targeting picks, if any. */
    function NearestSlot(): Option<nat>
      reads this, enemies, EnemySet()
    {
      NearestAmong(EnemyFlags(), EnemyDistances(), enemies.Length)
    }

    /** The scene's `create`: the player at the centre, standing still, and both groups
        empty (every slot inactive). */
    constructor ()
      ensures Valid()
      ensures playerX == PLAYER_START.x && playerY == PLAYER_START.y && playerVelocity == Still
      ensures forall i :: 0 <= i < ENEMY_CAPACITY ==> !enemies[i].active
      ensures forall i :: 0 <= i < PROJECTILE_CAPACITY ==> !projectiles[i].active
      ensures CountActive(EnemyFlags()) == 0 && CountActive(ProjectileFlags()) == 0
    {
      playerX, playerY := PLAYER_START.x, PLAYER_START.y;
      playerVelocity := Still;
      var es := NewEnemyPool();
      var bs := NewProjectilePool();
      enemies := es;
      projectiles := bs;
    }

    /** `enemies.get`: the first inactive enemy slot, or null when the group is full. */
    method AcquireEnemy() returns (e: Enemy?)
      requires Valid()
      ensures e == null <==> FirstInactive(EnemyFlags()).None?
      ensures e != null ==> e == enemies[FirstInactive(EnemyFlags()).value] && !e.active
    {
      var i := 0;
      while i < enemies.Length
        invariant 0 <= i <= enemies.Length
        invariant forall j :: 0 <= j < i ==> enemies[j].active
      {
        if !enemies[i].active {
          return enemies[i];
        }
        i := i + 1;
      }
      return null;
    }

    /** `projectiles.get`: the first inactive bullet slot, or null when the group is full. */
    method AcquireProjectile() returns (b: Projectile?)
      requires Valid()
      ensures b == null <==> FirstInactive(ProjectileFlags()).None?
      ensures b != null ==> b == projectiles[FirstInactive(ProjectileFlags()).value] && !b.active
    {
      var i := 0;
      while i < projectiles.Length
        invariant 0 <= i <= projectiles.Length
        invariant forall j :: 0 <= j < i ==> projectiles[j].active
      {
        if !projectiles[i].active {
          return projectiles[i];
        }
        i := i + 1;
      }
      return null;
    }

    /** The periodic enemy spawn. `roll` is the uniform draw that picks the side and `y`
        the uniform integer draw in [0, 720]: the first free slot is spawned at the chosen
        point, as `Reuse` describes. */
    method SpawnEnemy(roll: real, y: int)
      requires Valid()
      requires 0.0 <= roll < 1.0 && 0 <= y <= WORLD_HEIGHT
      modifies EnemySet()
      ensures Valid()
      ensures EnemySlots() == Reuse(old(EnemySlots()), Spawned(SpawnSide(roll), y))
    {
      var x := SpawnSide(roll);
      var enemy := AcquireEnemy();
      if enemy != null {
        ghost var before := EnemySlots();
        ghost var k := FirstInactive(EnemyFlags()).value;
        ghost var revived := Spawned(x, y)(before[k]);
        assert Reuse(before, Spawned(x, y)) == before[k := revived];
        enemy.Spawn(x, y);
        assert forall i :: 0 <= i < enemies.Length && i != k ==> enemies[i] != enemy;
        assert EnemySlots() == before[k := revived];
      }
    }

    /** `getNearestEnemy`: a scan over the slots in order keeping the closest active enemy
        so far, replaced only by a strictly closer one. Returns null exactly when no enemy
        is active, and otherwise the enemy in the slot `NearestAmong` describes. */
    method GetNearestEnemy() returns (nearest: Enemy?)
      requires Valid()
      ensures nearest == null <==> forall i :: 0 <= i < enemies.Length ==> !enemies[i].active
      ensures nearest == null <==> NearestSlot().None?
      ensures nearest != null ==> nearest == enemies[NearestSlot().value] && nearest.active
    {
      nearest := null;
      ghost var slot := 0;
      var minDistance := 0;
      for i := 0 to enemies.Length
        invariant nearest == null <==> NearestAmong(EnemyFlags(), EnemyDistances(), i).None?
        invariant nearest != null ==>
          && NearestAmong(EnemyFlags(), EnemyDistances(), i) == Some(slot)
          && slot < enemies.Length && nearest == enemies[slot]
          && minDistance == EnemyDistances()[slot]
      {
        var enemy := enemies[i];
        if enemy.active {
          var dist := SqDistance(Point(playerX, playerY), Point(enemy.x, enemy.y));
          if nearest == null || dist < minDistance {
            minDistance := dist;
            nearest, slot := enemy, i;
          }
        }
      }
    }

    /** The periodic shot: with no active enemy nothing happens; otherwise the first
        free bullet, if any, is fired from the player at the nearest enemy. */
    method AutoShoot()
      requires Valid()
      modifies ProjectileSet()
      ensures Valid()
      ensures old(NearestSlot()).None? ==> BulletSlots() == old(BulletSlots())
      ensures old(NearestSlot()).Some? ==>
                var target := old(enemies[NearestSlot().value]);
                BulletSlots() == Reuse(old(BulletSlots()), Fired(playerX, playerY, old(target.x), old(target.y)))
    {
      ghost var before := BulletSlots();
      var nearestEnemy := GetNearestEnemy();
      assert BulletSlots() == before;
      if nearestEnemy != null {
        ghost var tx, ty := nearestEnemy.x, nearestEnemy.y;
        FireFirstFree(nearestEnemy);
        assert BulletSlots() == Reuse(before, Fired(playerX, playerY, tx, ty));
      }
    }

    /** `projectiles.get` followed by `fire` towards `target`. */
    method FireFirstFree(target: Enemy)
      requires Valid()
      modifies ProjectileSet()
      ensures Valid()
      ensures BulletSlots() == Reuse(old(BulletSlots()), Fired(playerX, playerY, target.x, target.y))
    {
      var bullet := AcquireProjectile();
      if bullet != null {
        ghost var before := BulletSlots();
        ghost var k := FirstInactive(ProjectileFlags()).value;
        ghost var revived := Fired(playerX, playerY, target.x, target.y)(before[k]);
        assert Reuse(before, Fired(playerX, playerY, target.x, target.y)) == before[k := revived];
        bullet.Fire(playerX, playerY, target);
        assert forall i :: 0 <= i < projectiles.Length && i != k ==> projectiles[i] != bullet;
        assert BulletSlots() == before[k := revived];
      }
    }

    /** A bullet overlaps an enemy: when both are active both are removed; otherwise
        nothing changes. A second report of the same pair is therefore harmless. */
    method HandleProjectileHit(bullet: Projectile, enemy: Enemy)
      modifies bullet, enemy
      ensures old(bullet.active && enemy.active) ==>
                && bullet.Sprite() == Hidden(old(bullet.Sprite())) && bullet.velocity == Still
                && enemy.Sprite() == Hidden(old(enemy.Sprite())) && enemy.velocity == Still
      ensures !old(bullet.active && enemy.active) ==> unchanged(bullet) && unchanged(enemy)
    {
      if bullet.active && enemy.active {
        bullet.Die();
        enemy.Die();
      }
    }

    /** An enemy touches the player: an active enemy is removed; the player is left as it
        is (this handler does not modify the scene). */
    method HandlePlayerHit(enemy: Enemy)
      modifies enemy
      ensures old(enemy.active) ==> enemy.Sprite() == Hidden(old(enemy.Sprite())) && enemy.velocity == Still
      ensures !old(enemy.active) ==> unchanged(enemy)
    {
      if enemy.active {
        enemy.Die();
      }
    }

    /** One frame: set the player's velocity from the keys, steer every active enemy
        towards the player, then let every active bullet check the world bounds. */
    method Update(keys: Keys)
      requires Valid()
      modifies this, EnemySet(), ProjectileSet()
      ensures Valid()
      ensures playerVelocity == Scaled(Intent(keys).0, Intent(keys).1, PLAYER_SPEED)
      ensures playerX == old(playerX) && playerY == old(playerY)
      ensures EnemySlots() == SteerAll(old(EnemySlots()), playerX, playerY)
      ensures BulletSlots() == CullAll(old(BulletSlots()))
    {
      var intent := Intent(keys);
      playerVelocity := Scaled(intent.0, intent.1, PLAYER_SPEED);
      UpdateEnemies();
      UpdateProjectiles();
    }

    /** The enemy pass: every active enemy heads for the player; nothing else changes. */
    method UpdateEnemies()
      requires Valid()
      modifies EnemySet()
      ensures Valid()
      ensures EnemySlots() == SteerAll(old(EnemySlots()), playerX, playerY)
    {
      ghost var before := EnemySlots();
      for i := 0 to enemies.Length
        invariant Valid()
        invariant forall j :: 0 <= j < i ==> EnemySlots()[j] == Steered(before[j], playerX, playerY)
        invariant forall j :: i <= j < enemies.Length ==> EnemySlots()[j] == before[j]
      {
        var enemy := enemies[i];
        if enemy.active {
          enemy.Update(Some(Point(playerX, playerY)));
        }
      }
    }

    /** The bullet pass: every active bullet outside the world is removed; nothing else
        changes. */
    method UpdateProjectiles()
      requires Valid()
      modifies ProjectileSet()
      ensures Valid()
      ensures BulletSlots() == CullAll(old(BulletSlots()))
    {
      ghost var before := BulletSlots();
      for i := 0 to projectiles.Length
        invariant Valid()
        invariant forall j :: 0 <= j < i ==> BulletSlots()[j] == Culled(before[j])
        invariant forall j :: i <= j < projectiles.Length ==> BulletSlots()[j] == before[j]
      {
        var bullet := projectiles[i];
        if bullet.active {
          bullet.Update();
        }
      }
    }
  }
}
