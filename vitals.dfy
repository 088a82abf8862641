/** The player's vitals and the game's mode, as values: what `GameState` holds
    and how `take_damage` and `heal` change it. */
module Vitals {

  datatype Mode = Menu | Playing | Paused | GameOver | LevelComplete

  /** One snapshot of the fields of `GameState` (fonts are left out). */
  datatype Status = Status(
    mode: Mode,
    score: int,
    health: int,
    maxHealth: int,
    lives: int,
    currentLevel: int,
    maxLevel: int,
    fruitsCollected: int,
    checkpointReached: bool,
    checkpointPos: (real, real))

  const StartHealth: int := 100
  const StartLives: int := 3
  const LastLevel: int := 3

  /** The invariant every reachable status keeps: health within [0, maxHealth],
      the level within [1, maxLevel], and a positive health while lives remain. */
  predicate Valid(s: Status) {
    && 0 < s.maxHealth
    && 0 <= s.health <= s.maxHealth
    && 1 <= s.currentLevel <= s.maxLevel
    && (s.lives > 0 ==> s.health > 0)
  }

  /** `GameState()`: the menu, full health, three lives, level 1 of 3. */
  function Initial(): (s: Status)
    ensures Valid(s) && s.mode == Menu
    ensures s.health == s.maxHealth == StartHealth && s.lives == StartLives
    ensures s.score == 0 && s.fruitsCollected == 0 && !s.checkpointReached
    ensures s.currentLevel == 1 && s.maxLevel == LastLevel && s.checkpointPos == (100.0, 100.0)
  {
    Status(Menu, 0, StartHealth, StartHealth, StartLives, 1, LastLevel, 0, false, (100.0, 100.0))
  }

  /** `take_damage`: health falls by `damage`; reaching 0 costs exactly one life and
      then either ends the game (health stays 0) or restores full health. */
  function TakeDamage(s: Status, damage: int): (r: Status)
    ensures r == s.(health := r.health, lives := r.lives, mode := r.mode)
    ensures s.health - damage > 0 ==> r.health == s.health - damage && r.lives == s.lives && r.mode == s.mode
    ensures s.health - damage <= 0 ==> r.lives == s.lives - 1
    ensures s.health - damage <= 0 && r.lives <= 0 ==> r.mode == GameOver && r.health == 0
    ensures s.health - damage <= 0 && r.lives > 0 ==> r.mode == s.mode && r.health == s.maxHealth
    ensures r.lives == s.lives || r.lives == s.lives - 1
    ensures Valid(s) && damage >= 0 ==> Valid(r)
  {
    var h := s.health - damage;
    if h <= 0 then
      var lives := s.lives - 1;
      if lives <= 0 then s.(health := 0, lives := lives, mode := GameOver)
      else s.(health := s.maxHealth, lives := lives)
    else s.(health := h)
  }

  /** `heal`: health rises by `amount` but never above `maxHealth`. */
  function Heal(s: Status, amount: int): (r: Status)
    ensures r == s.(health := r.health)
    ensures r.health <= s.maxHealth
    ensures r.health == s.health + amount || r.health == s.maxHealth
    ensures s.health + amount <= s.maxHealth ==> r.health == s.health + amount
    ensures s.health + amount >= s.maxHealth ==> r.health == s.maxHealth
    ensures amount >= 0 && s.health <= s.maxHealth ==> s.health <= r.health
    ensures Valid(s) && amount >= 0 ==> Valid(r)
  {
    s.(health := if s.health + amount < s.maxHealth then s.health + amount else s.maxHealth)
  }

  /** Nothing in `take_damage` stops at game over: a second hit in the same tick
      after the last life was lost takes `lives` below zero. */
  lemma DamageAfterGameOver(s: Status, d1: int, d2: int)
    requires Valid(s) && s.lives == 1 && d1 >= s.health && d2 >= 0
    ensures TakeDamage(s, d1).mode == GameOver && TakeDamage(s, d1).lives == 0
    ensures TakeDamage(TakeDamage(s, d1), d2).lives == -1
    ensures TakeDamage(TakeDamage(s, d1), d2).health == 0
  {
  }

  /** Damage applied `n` times in a row (the dispatch loop applies it once per contact). */
  function DamageTimes(s: Status, damage: int, n: nat): Status
    decreases n
  {
    if n == 0 then s else DamageTimes(TakeDamage(s, damage), damage, n - 1)
  }

  /** However many hits land, validity holds and lives never rise, falling by at most one per hit. */
  lemma {:induction false} DamageTimesBounds(s: Status, damage: int, n: nat)
    requires Valid(s) && damage >= 0
    ensures Valid(DamageTimes(s, damage, n))
    ensures s.lives - n <= DamageTimes(s, damage, n).lives <= s.lives
    decreases n
  {
    if n > 0 {
      DamageTimesBounds(TakeDamage(s, damage), damage, n - 1);
    }
  }
  /** Hitting once more after `n` hits is `n + 1` hits. */
  lemma {:induction false} DamageTimesSucc(s: Status, damage: int, n: nat)
    ensures DamageTimes(s, damage, n + 1) == TakeDamage(DamageTimes(s, damage, n), damage)
    decreases n
  {
    if n > 0 {
      DamageTimesSucc(TakeDamage(s, damage), damage, n - 1);
    }
  }
}

/** The mutable `GameState` object: the same fields, changed in place. */
module GameStates {
  import opened Vitals

  class GameState {
    var state: Mode
    var score: int
    var health: int
    var maxHealth: int
    var lives: int
    var currentLevel: int
    var maxLevel: int
    var fruitsCollected: int
    var checkpointReached: bool
    var checkpointPos: (real, real)

    function Snapshot(): Status
      reads this
    {
      Status(state, score, health, maxHealth, lives, currentLevel, maxLevel,
             fruitsCollected, checkpointReached, checkpointPos)
    }

    constructor ()
      ensures Snapshot() == Initial()
    {
      state := Menu;
      score := 0;
      health := 100;
      maxHealth := 100;
      lives := 3;
      currentLevel := 1;
      maxLevel := 3;
      fruitsCollected := 0;
      checkpointReached := false;
      checkpointPos := (100.0, 100.0);
    }

    /** Overwrite every field with the given snapshot. */
    method Assign(s: Status)
      modifies this
      ensures Snapshot() == s
    {
      state, score, health, maxHealth, lives := s.mode, s.score, s.health, s.maxHealth, s.lives;
      currentLevel, maxLevel, fruitsCollected := s.currentLevel, s.maxLevel, s.fruitsCollected;
      checkpointReached, checkpointPos := s.checkpointReached, s.checkpointPos;
    }

    method TakeDamage(damage: int)
      modifies this
      ensures Snapshot() == Vitals.TakeDamage(old(Snapshot()), damage)
    {
      health := health - damage;
      if health <= 0 {
        health := 0;
        lives := lives - 1;
        if lives <= 0 {
          state := GameOver;
        } else {
          health := maxHealth;
        }
      }
    }

    method Heal(amount: int)
      modifies this
      ensures Snapshot() == Vitals.Heal(old(Snapshot()), amount)
    {
      health := if maxHealth < health + amount then maxHealth else health + amount;
    }
  }
}
