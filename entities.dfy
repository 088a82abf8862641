/** The objects of a level, as values: blocks, pickups, checkpoints, exits, fire,
    patrolling enemies, and the projectiles shooters fire; with the per-tick
    rules of `Enemy.update` and `Projectile.update`. */
module Entities {
  import opened Common

  datatype EnemyType = Walker | Shooter | Jumper

  /** The fields of `Enemy` that `update` reads or writes besides its rectangle.
      `direction` is +1 or -1. */
  datatype Enemy = Enemy(etype: EnemyType, startX: real, direction: int, shootCooldown: int)

  /** What an object is, standing for its `name` (and, for a checkpoint, its
      `activated` flag). A `Block` has no name. */
  datatype Kind =
    | Block
    | Fruit
    | HealthPotion
    | Checkpoint(activated: bool)
    | LevelExit
    | Fire
    | Foe(enemy: Enemy)

  /** One entry of the level's object list. `id` stands for the Python object's
      identity, which `list.remove` and `in` compare. */
  datatype LevelObject = LevelObject(id: nat, box: Box, kind: Kind)

  datatype Projectile = Projectile(box: Box, speed: real, direction: int)

  const FruitPoints: int := 100
  const PotionHeal: int := 25
  const PotionPoints: int := 50
  const ShotSpeed: real := 8.0
  const ShotReload: int := 120
  /** A shooter fires only at a player closer than this, horizontally. */
  const ShotReach: real := 300.0
  /** Projectiles further than this outside the window are dropped. */
  const CullMargin: real := 50.0

  function MoveRange(t: EnemyType): real {
    match t
    case Walker => 150.0
    case Shooter => 100.0
    case Jumper => 200.0
  }

  function Speed(t: EnemyType): real {
    match t
    case Walker => 1.0
    case Shooter => 0.5
    case Jumper => 2.0
  }

  /** `Enemy(x, y, width, height, enemy_type)`: heading right from its start. */
  function NewEnemy(id: nat, x: real, y: real, w: real, h: real, t: EnemyType): (o: LevelObject)
    ensures o.kind.Foe? && o.kind.enemy.etype == t
    ensures o.box == Box(x, y, w, h) && o.id == id
    ensures o.kind.enemy.shootCooldown == 0
    ensures PatrolInv(o.box.x, o.kind.enemy)
  {
    LevelObject(id, Box(x, y, w, h), Foe(Enemy(t, x, 1, 0)))
  }

  /** The patrol invariant: the direction is a unit, the enemy never strays more
      than one step outside [startX, startX + range], and it heads right only
      from below the right end and left only from above the start. */
  predicate PatrolInv(x: real, e: Enemy) {
    var lo := e.startX;
    var hi := e.startX + MoveRange(e.etype);
    var s := Speed(e.etype);
    && (e.direction == 1 || e.direction == -1)
    && lo - s < x < hi + s
    && (e.direction == 1 ==> x < hi)
    && (e.direction == -1 ==> x > lo)
  }

  /** The patrol part of `Enemy.update`, the same for every type: step by
      speed * direction, and turn round on reaching either end. */
  function Patrol(x: real, e: Enemy): (r: (real, int))
    ensures r.0 == x + Speed(e.etype) * e.direction as real
    ensures r.1 == e.direction || r.1 == -e.direction
    ensures e.direction != 0 ==>
              (r.1 == -e.direction <==> r.0 >= e.startX + MoveRange(e.etype) || r.0 <= e.startX)
    ensures PatrolInv(x, e) ==> PatrolInv(r.0, e.(direction := r.1))
  {
    var nx := x + Speed(e.etype) * e.direction as real;
    if nx >= e.startX + MoveRange(e.etype) || nx <= e.startX then (nx, -e.direction)
    else (nx, e.direction)
  }

  /** `Enemy.update(player_pos, projectiles)`: the new rectangle, the new enemy
      fields and the projectile appended, if any. Only a shooter ever fires, at
      most once, and only when its cooldown (decremented on every update) has
      run out and the player is within reach; it aims at the player's side. */
  function UpdateEnemy(box: Box, e: Enemy, player: (real, real)): (r: (Box, Enemy, Option<Projectile>))
    ensures r.0 == box.(x := Patrol(box.x, e).0)
    ensures r.1.etype == e.etype && r.1.startX == e.startX && r.1.direction == Patrol(box.x, e).1
    ensures e.etype != Shooter ==> r.2.None? && r.1.shootCooldown == e.shootCooldown
    ensures e.etype == Shooter ==>
              (r.2.Some? <==> e.shootCooldown - 1 <= 0 && Abs(player.0 - r.0.CenterX()) < ShotReach)
    ensures r.2.Some? ==>
              && r.1.shootCooldown == ShotReload
              && r.2.value.box == Box(r.0.CenterX(), r.0.CenterY(), 12.0, 6.0)
              && r.2.value.speed == ShotSpeed
              && r.2.value.direction == (if player.0 > r.0.CenterX() then 1 else -1)
    ensures e.etype == Shooter && r.2.None? ==> r.1.shootCooldown == e.shootCooldown - 1
    ensures PatrolInv(box.x, e) ==> PatrolInv(r.0.x, r.1)
  {
    var (nx, dir) := Patrol(box.x, e);
    var b := box.(x := nx);
    var moved := e.(direction := dir);
    if e.etype != Shooter then (b, moved, None)
    else
      var cd := e.shootCooldown - 1;
      if cd <= 0 && Abs(player.0 - b.CenterX()) < ShotReach then
        var aim := if player.0 > b.CenterX() then 1 else -1;
        (b, moved.(shootCooldown := ShotReload),
         Some(Projectile(Box(b.CenterX(), b.CenterY(), 12.0, 6.0), ShotSpeed, aim)))
      else (b, moved.(shootCooldown := cd), None)
  }

  /** The loop body of `update_enemies_and_projectiles` for one object: enemies
      update, everything else is left as it is. */
  function UpdateObject(o: LevelObject, player: (real, real)): (r: (LevelObject, Option<Projectile>))
    ensures r.0.id == o.id && r.0.box.y == o.box.y && r.0.box.w == o.box.w && r.0.box.h == o.box.h
    ensures !o.kind.Foe? ==> r == (o, None)
    ensures o.kind.Foe? ==> r.0.kind.Foe? && r.0.kind.enemy.etype == o.kind.enemy.etype
    ensures r.1.Some? ==> o.kind.Foe? && o.kind.enemy.etype == Shooter
  {
    match o.kind
    case Foe(e) =>
      var (b, e', shot) := UpdateEnemy(o.box, e, player);
      (o.(box := b, kind := Foe(e')), shot)
    case _ => (o, None)
  }

  /** Patrols, one object over a run of updates (the player may move in between). */
  function Patrols(o: LevelObject, players: seq<(real, real)>): LevelObject
    decreases |players|
  {
    if players == [] then o else Patrols(UpdateObject(o, players[0]).0, players[1..])
  }

  /** However long it patrols, an enemy starting as `NewEnemy` puts it stays
      strictly within one step of its range. */
  lemma {:induction false} PatrolBounded(o: LevelObject, players: seq<(real, real)>)
    requires o.kind.Foe? && PatrolInv(o.box.x, o.kind.enemy)
    ensures var p := Patrols(o, players);
      && p.kind.Foe? && p.kind.enemy.startX == o.kind.enemy.startX
      && p.kind.enemy.etype == o.kind.enemy.etype
      && PatrolInv(p.box.x, p.kind.enemy)
      && o.kind.enemy.startX - Speed(o.kind.enemy.etype) < p.box.x
      && p.box.x < o.kind.enemy.startX + MoveRange(o.kind.enemy.etype) + Speed(o.kind.enemy.etype)
    decreases |players|
  {
    if players != [] {
      var next := UpdateObject(o, players[0]).0;
      assert next.kind.enemy.startX == o.kind.enemy.startX;
      PatrolBounded(next, players[1..]);
    }
  }

  /** The shots an enemy fires over a run of updates. */
  function ShotCount(box: Box, e: Enemy, players: seq<(real, real)>): nat
    decreases |players|
  {
    if players == [] then 0
    else
      var (b, e', shot) := UpdateEnemy(box, e, players[0]);
      (if shot.Some? then 1 else 0) + ShotCount(b, e', players[1..])
  }

  function MaxInt(a: int, b: int): int { if a < b then b else a }

  /** A shooter's fire rate: with cooldown `c` (never above 120), `n` updates yield at most
      (n + 120 - max(c, 1)) / 120 shots; in particular none before its
      cooldown runs out, and at most one in any 120 consecutive updates. */
  lemma {:induction false} ShotRate(box: Box, e: Enemy, players: seq<(real, real)>)
    requires e.shootCooldown <= ShotReload
    ensures ShotReload * ShotCount(box, e, players) <= |players| + ShotReload - MaxInt(e.shootCooldown, 1)
    decreases |players|
  {
    if players != [] {
      var r := UpdateEnemy(box, e, players[0]);
      var rest := ShotCount(r.0, r.1, players[1..]);
      assert ShotCount(box, e, players) == (if r.2.Some? then 1 else 0) + rest;
      ShotRate(r.0, r.1, players[1..]);
      assert ShotReload * rest <= |players| - 1 + ShotReload - MaxInt(r.1.shootCooldown, 1);
      if r.2.Some? {
        assert e.shootCooldown <= 1 && r.1.shootCooldown == ShotReload;
        assert ShotReload * ShotCount(box, e, players) == ShotReload + ShotReload * rest;
      } else if e.etype == Shooter {
        assert r.1.shootCooldown == e.shootCooldown - 1;
        assert MaxInt(e.shootCooldown, 1) <= MaxInt(r.1.shootCooldown, 1) + 1;
        assert ShotReload * ShotCount(box, e, players) == ShotReload * rest;
      } else {
        assert r.1.shootCooldown == e.shootCooldown;
        assert ShotReload * ShotCount(box, e, players) == ShotReload * rest;
      }
    }
  }

  /** After a shot the cooldown is 120, so the next 119 updates fire nothing. */
  lemma ReloadQuiet(box: Box, e: Enemy, players: seq<(real, real)>)
    requires e.shootCooldown == ShotReload && |players| < ShotReload
    ensures ShotCount(box, e, players) == 0
  {
    ShotRate(box, e, players);
  }

  /** `Projectile.update`: a horizontal step of speed * direction. */
  function Advance(p: Projectile): (r: Projectile)
    ensures r.box == p.box.Shift(p.speed * p.direction as real, 0.0)
    ensures r.speed == p.speed && r.direction == p.direction
  {
    p.(box := p.box.(x := p.box.x + p.speed * p.direction as real))
  }

  /** A projectile survives culling unless it is more than 50 px outside the window. */
  predicate OnScreen(p: Projectile) {
    !(p.box.x < -CullMargin || p.box.x > Width + CullMargin)
  }

  function AdvanceN(p: Projectile, n: nat): Projectile
    decreases n
  {
    if n == 0 then p else AdvanceN(Advance(p), n - 1)
  }

  lemma {:induction false} AdvanceNPosition(p: Projectile, n: nat)
    ensures AdvanceN(p, n).box == p.box.(x := p.box.x + n as real * p.speed * p.direction as real)
    ensures AdvanceN(p, n).speed == p.speed && AdvanceN(p, n).direction == p.direction
    decreases n
  {
    if n > 0 {
      AdvanceNPosition(Advance(p), n - 1);
    }
  }

  /** A shooter's projectile cannot stay on screen for more than 138 updates:
      138 * 8 > 1100, the width of the band projectiles may occupy. */
  lemma ShotLeavesScreen(p: Projectile)
    requires OnScreen(p) && p.speed == ShotSpeed && (p.direction == 1 || p.direction == -1)
    ensures !OnScreen(AdvanceN(p, 138))
  {
    AdvanceNPosition(p, 138);
    var step := 138 as real * p.speed;
    assert step == 1104.0;
    if p.direction == 1 {
      assert AdvanceN(p, 138).box.x == p.box.x + step;
    } else {
      assert AdvanceN(p, 138).box.x == p.box.x - step;
    }
  }
}
