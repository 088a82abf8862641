# Python platformer: a verified model of its simulation core

This project models the game logic of `tutorial.py`, a single-file pygame
platformer, in Dafny. pygame itself is treated as an abstract environment.
The model covers:

- the player's vitals (`GameState.take_damage`, `heal`) and the modal state
  machine MENU / PLAYING / PAUSED / GAME_OVER / LEVEL_COMPLETE that `main`
  drives from key presses;
- the `Player` movement controller: jump and wall jump, dash, hit stun,
  acceleration, friction, gravity, landing, ceiling bumps and the choice of
  animation frame;
- the collision pipeline of `handle_move`: the horizontal probes of
  `collide`, the wall-slide check, the vertical snap of
  `handle_vertical_collision`, the dispatch of contacts by object name, the
  projectile hits and the removal of collected items;
- enemy patrols and shooters (`Enemy.update`), projectile motion
  (`Projectile.update`) and culling (`update_enemies_and_projectiles`);
- the frame loop of `main`: the event loop, the PLAYING-only tick, the
  fall-off respawn and the camera scroll.

Pixel-mask collision (`pygame.sprite.collide_mask`) is a parameter
`ov: (Box, Box) -> bool`, so every collision result holds for any overlap
relation. Object identity, which Python's `list.remove` and `in` compare, is
an `id` field. Every level layout keeps its ids distinct, and the model
proves that they stay distinct.

Each imperative part of the source is a class whose methods change its
fields in place: `GameStates.GameState`, `Players.Player`, `Levels.Level`
and `Driver.Game`. Each method is proved to leave exactly the state that a
pure function of the old state describes: `ensures State() ==
Movement.Jump(old(State()))`, `ensures objects == RemoveAll(old(objects),
ids)`, and so on. The lemmas state the game's properties about those pure
functions.

Modules, in dependency order:

| module | file | contents |
|---|---|---|
| `Common` | common.dfy | window constants, `Box` (a pygame `Rect`), `Option`, `Filter`/`MapSeq` |
| `Vitals`, `GameStates` | vitals.dfy | `Status` value with `TakeDamage`/`Heal`; the `GameState` class |
| `Controls` | controls.dfy | the key-transition table `OnKey` |
| `Movement` | movement.dfy | the `Body` value and every `Player` rule as a function, with lemmas |
| `Players` | players.dfy | the `Player` class |
| `Entities` | entities.dfy | level objects, `Enemy.update`, `Projectile.update` |
| `Levels` | levels.dfy | the `Level` class: the object and projectile lists, the update loops, removal |
| `Collision` | collision.dfy | `collide`, `check_wall_slide`, `handle_vertical_collision` |
| `Contacts` | contacts.dfy | the dispatch, the projectile hits and `handle_move` |
| `Driver` | driver.dfy | `main`'s event loop, tick, respawn and camera; the `Game` class |

## Model

| member | source | states |
|---|---|---|
| Vitals.Initial | tutorial.py:105-118 | a fresh `GameState` is in MENU with 100 of 100 health, 3 lives, no score, no checkpoint reached and the checkpoint position (100, 100), at level 1 of 3, and is valid |
| Vitals.TakeDamage | tutorial.py:120-128 | only health, lives and mode change. Above 0, health just drops. Reaching 0 costs exactly one life, then either sets GAME_OVER with health 0 (no lives left) or restores max health. Non-negative damage keeps health in [0, max] |
| Vitals.Heal | tutorial.py:130-131 | only health changes, to `min(max_health, health + amount)`: the sum when it fits, max health otherwise. It never falls for a non-negative amount, and validity is kept |
| Vitals.DamageAfterGameOver | tutorial.py:120-128 | a second hit after the last life is lost drives lives to -1 and keeps health at 0, because nothing checks GAME_OVER |
| Vitals.DamageTimesBounds | tutorial.py:120-128 | any number of hits keeps the vitals valid, and each hit costs at most one life |
| GameStates.GameState.constructor | tutorial.py:105-118 | the new object's fields are `Initial()` |
| GameStates.GameState.Assign | tutorial.py:979-986 | rebinding `game_state` to a new `GameState()` is modelled as overwriting every field of the one object |
| GameStates.GameState.TakeDamage | tutorial.py:120-128 | the fields become `Vitals.TakeDamage` of the old ones |
| GameStates.GameState.Heal | tutorial.py:130-131 | the fields become `Vitals.Heal` of the old ones |
| Controls.OnKey | tutorial.py:951-998 | the mode table. The only ways into PLAYING are MENU+Enter, PAUSED+P, GAME_OVER+R and LEVEL_COMPLETE+N (the last only below the last level). MENU+Enter starts level 1 without resetting the vitals. PAUSED+M keeps the vitals. GAME_OVER+R restarts level 1 with fresh vitals. M from GAME_OVER or LEVEL_COMPLETE gives fresh vitals. N advances the level and clears the checkpoint. In PLAYING, Space gives a jump, X a dash and P pauses; jump and dash are forwarded only while PLAYING. Quit happens exactly on MENU+Q. Validity is kept |
| Controls.PauseResume | tutorial.py:967-972 | P then P again returns to the same status |
| Controls.RunKeepsValid | tutorial.py:951-998 | over any history of keys, damage and healing, health stays in [0, max] and the level in [1, max_level] |
| Movement.NewBody | tutorial.py:252-266 | a new player is at rest, facing left, with the fall and animation counters at 0, no jumps spent, no stun, no cooldowns, no wall slide and no frame chosen yet |
| Movement.Jump | tutorial.py:300-313 | with two jumps spent and no wall slide, nothing happens. Otherwise y_vel becomes -8 and the animation restarts. An ordinary jump adds one to the jump count. A wall jump sets the count to 1, x_vel to +8 or -8 away from the facing side and the wall-jump cooldown to 10. The fall timer resets iff the count ends at 1. The count stays at most 2 |
| Movement.Dash | tutorial.py:317-323 | nothing happens while the cooldown runs. Otherwise x_vel becomes exactly +15 facing right or -15 facing left, and the cooldown becomes 60 |
| Movement.MakeHit | tutorial.py:329-333 | sets the hit flag; a player already hit is unchanged |
| Movement.MoveLeft | tutorial.py:335-340 | x_vel is unchanged during a wall-jump cooldown. Otherwise it drops by 0.3·vel, not below -max_speed. The player faces left after the call; the animation restarts only on a turn |
| Movement.MoveRight | tutorial.py:342-347 | the mirror image of `MoveLeft` |
| Movement.ApplyFriction | tutorial.py:349-353 | only x_vel changes. It is zero iff |x_vel| ≤ 0.1, otherwise it is multiplied by 0.8. It never grows and never changes sign |
| Movement.AnimationState | tutorial.py:390-404 | the priority hit > wall slide > ascending (jump or double jump by jump count) > falling faster than 2 > running faster than 0.1 > idle |
| Movement.SheetKey | tutorial.py:405-415 | the sheet shown is the state's sheet for the facing direction whenever that sheet exists, and the idle sheet for that direction exactly when it does not; the sheet shown always exists |
| Movement.FrameIndex | tutorial.py:408 | `(animation_count // 3) % len` is a valid frame index |
| Movement.UpdateSprite | tutorial.py:389-417 | only the frame and the animation counter change. The frame comes from `SheetKey` at `FrameIndex`, and the counter goes up by one |
| Movement.Loop | tutorial.py:355-377 | while sliding down, y_vel is capped at 2. Otherwise it grows by min(1, fall_count/fps). The player moves by its velocity. Dash and wall-jump cooldowns drop by one, without going below 0. The fall timer goes up by one. The hit flag survives iff 2·(hit_count+1) ≤ fps. Direction, jump count and wall slide are kept |
| Movement.Landed | tutorial.py:379-383 | zeroes fall timer, y_vel and jump count and clears the wall slide, nothing else |
| Movement.HitHead | tutorial.py:385-387 | negates y_vel, nothing else |
| Movement.FreeFall | tutorial.py:357-376 | after n ticks off a wall, y_vel has grown by the sum of min(1, k/fps) over the fall timers read. The timer is read before it is incremented, so tick n adds min(1, (n-1)/fps) |
| Movement.RampSumRising | tutorial.py:360 | while the ramp rises, n ticks from timer f add (n·f + n(n-1)/2)/fps, written as (2nf + n(n-1)) / (2·fps) |
| Movement.RampSumTwice | tutorial.py:360 | while the ramp rises, each tick adds its timer over fps, so n ticks from timer f add (2f + 2(f+1) + … + 2(f+n-1)) / (2·fps) |
| Movement.RampSumSaturated | tutorial.py:360 | once the timer reaches fps, gravity adds exactly 1 per tick |
| Movement.DashRecharge | tutorial.py:317-323 | after a dash, the k-th tick leaves 60-k cooldown, and another dash is refused exactly until the 60th tick |
| Movement.CooldownTicksDown | tutorial.py:370-371 | k ticks take k off a cooldown of at least k |
| Movement.HitWindow | tutorial.py:329-333 | a fresh hit keeps the stun for fps/2 ticks and clears it, with the timer at 0, on tick fps/2+1 |
| Movement.StunHolds | tutorial.py:364-368 | the stun holds and the timer counts while 2·(hit_count+k) ≤ fps |
| Movement.LoopNSplit | tutorial.py:355-377 | k+1 ticks are k ticks followed by one more |
| Movement.DoubleJumpBudget | tutorial.py:300-313 | from the ground, exactly two jumps are allowed. The third press does nothing, and landing restores the budget |
| Movement.MoveLeftCutsLeftDash | tutorial.py:317-340 | holding left during a leftward dash clamps -15 to -max_speed at once |
| Movement.JumpCountBounded | tutorial.py:300-313 | over any sequence of the controller's and the collision code's changes, the jump count stays in {0, 1, 2} |
| Movement.StunStaysCoherent | tutorial.py:364-368 | over any such sequence, the stun timer is 0 when not hit and never above fps/2 |
| Movement.FrameAdvances | tutorial.py:408 | the frame index stays put for 3 ticks, then moves on by one, wrapping round |
| Movement.WallSlideShowsIdle | tutorial.py:393-394 | with direction-suffixed sheet names, a wall slide shows the idle animation |
| Players.Player.constructor | tutorial.py:243-266 | the fields are `NewBody(x, y, w, h)` |
| Players.Player.SetState | tutorial.py:957 | rebinding `player` to a new `Player` is modelled as overwriting every field |
| Players.Player.Jump | tutorial.py:300-315 | the fields become `Movement.Jump` of the old ones |
| Players.Player.Dash | tutorial.py:317-323 | the fields become `Movement.Dash` of the old ones |
| Players.Player.Move | tutorial.py:325-327 | only the rectangle moves, by (dx, dy) |
| Players.Player.MakeHit | tutorial.py:329-333 | the fields become `Movement.MakeHit` of the old ones |
| Players.Player.MoveLeft | tutorial.py:335-340 | the fields become `Movement.MoveLeft` of the old ones |
| Players.Player.MoveRight | tutorial.py:342-347 | the fields become `Movement.MoveRight` of the old ones |
| Players.Player.ApplyFriction | tutorial.py:349-353 | the fields become `Movement.ApplyFriction` of the old ones |
| Players.Player.Tick | tutorial.py:355-376 | the steps of `loop` before the sprite update, in source order, give `Movement.Tick` |
| Players.Player.Fall | tutorial.py:356-362 | gravity or the wall-slide cap, then the move, give `Movement.Fall` of the old fields |
| Players.Player.Timers | tutorial.py:364-376 | the hit, cooldown and fall counters step as `Movement.Timers` of the old fields |
| Players.Player.Loop | tutorial.py:355-377 | the fields become `Movement.Loop` of the old ones |
| Players.Player.Landed | tutorial.py:379-383 | the fields become `Movement.Landed` of the old ones |
| Players.Player.HitHead | tutorial.py:385-387 | the fields become `Movement.HitHead` of the old ones |
| Players.Player.UpdateSprite | tutorial.py:389-417 | the fields become `Movement.UpdateSprite` of the old ones |
| Entities.NewEnemy | tutorial.py:529-534 | a new enemy heads right with cooldown 0, from its start, and satisfies the patrol invariant |
| Entities.Patrol | tutorial.py:553-561 | the enemy steps by speed·direction and turns round iff the new x reaches start+range or start. The patrol invariant (unit direction, at most one step outside the range) is kept |
| Entities.UpdateEnemy | tutorial.py:552-578 | every type patrols. Only a shooter counts its cooldown down and fires. It fires at most once, iff the decremented cooldown is ≤ 0 and the player is within 300 px horizontally. The shot is a 12×6 projectile at its centre with speed 8, aimed +1 if the player is to the right and -1 otherwise, and the cooldown becomes 120. The patrol invariant is kept |
| Entities.UpdateObject | tutorial.py:920-922 | only enemies change, and keep their id, y and size. Only a shooter yields a shot |
| Entities.PatrolBounded | tutorial.py:552-578 | however long it patrols, a new enemy stays strictly within one step of [start, start+range] |
| Entities.ShotRate | tutorial.py:564-571 | a shooter with cooldown c ≤ 120 fires at most (n+120-max(c,1))/120 shots in n updates |
| Entities.ReloadQuiet | tutorial.py:571 | after a shot, the next 119 updates fire nothing |
| Entities.Advance | tutorial.py:525-526 | a projectile moves by speed·direction horizontally, nothing else |
| Entities.AdvanceNPosition | tutorial.py:525-526 | n updates move it by n·speed·direction |
| Entities.ShotLeavesScreen | tutorial.py:925-929 | a shooter's projectile is outside the culling band after 138 updates |
| Levels.UpdateAll | tutorial.py:920-922 | the enemy loop updates each object as `UpdateObject` does, in place, and appends no more shots than there are shooters |
| Levels.UpdateAllConcat | tutorial.py:920-922 | the loop is an in-order pass: on a list split in two, the objects and the shots are those of the pieces, concatenated in order |
| Levels.UpdateAllSingle | tutorial.py:920-922 | on one object the loop yields the updated object and exactly the shot it fired, if any. With `UpdateAllConcat` this fixes the shots as those fired, in list order |
| Levels.UpdateAllShotsFired | tutorial.py:920-922 | every appended shot is the shot some object of the list fires |
| Levels.Cull | tutorial.py:925-929 | every survivor is within 50 px of the window, and every moved projectile that ends within that band survives |
| Levels.CullConcat | tutorial.py:925-929 | the cull is an in-order pass: culling a list split in two gives the two culls, concatenated in order |
| Levels.CullSingle | tutorial.py:925-929 | one projectile survives, moved, iff it ends up within 50 px of the window. With `CullConcat` this fixes `Cull` completely |
| Levels.CullSurvivorsMoved | tutorial.py:925-929 | every survivor is some input projectile, moved one step |
| Levels.UpdateKeepsIds | tutorial.py:920-922 | the enemy loop keeps every id in its place, so ids stay distinct. Non-enemies are untouched |
| Levels.FindId | tutorial.py:915 | `obj in objects`: the first index holding this id, or none iff no entry holds it |
| Levels.RemoveFound | tutorial.py:916 | `objects.remove(obj)` cuts out exactly the entry `FindId` locates, or nothing |
| Levels.RemoveIdIsFilter | tutorial.py:916 | with distinct ids, removing an id is filtering it out, and ids stay distinct |
| Levels.RemoveAllIsFilter | tutorial.py:914-916 | with distinct ids, the removal loop keeps exactly the objects whose ids were not queued, in order. Repeated ids are removed once |
| Levels.UpdateEnemyList | tutorial.py:920-922 | the loop over the list, updating enemies in place and collecting their shots, yields exactly `UpdateAll` |
| Levels.CullList | tutorial.py:925-929 | the loop over the copy, moving each projectile and removing the off-screen ones from the live list, yields exactly `Cull` |
| Levels.IndexOfId | tutorial.py:915 | the linear search for `obj in objects` finds the index `FindId` names, or reports none |
| Levels.Level.constructor | tutorial.py:937 | a new level holds the given objects and no projectiles |
| Levels.Level.Load | tutorial.py:956 | `objects, projectiles = create_level(n)`: the given objects, no projectiles |
| Levels.Level.UpdateEnemiesAndProjectiles | tutorial.py:918-929 | objects become `UpdateAll(old).0`, and projectiles become `Cull` of the old ones plus the new shots |
| Levels.Level.UpdateEnemies | tutorial.py:920-922 | the first loop's result is `UpdateAll` |
| Levels.Level.UpdateProjectiles | tutorial.py:925-929 | the projectile list becomes `Cull` of the old one, and the objects are untouched |
| Levels.Level.RemoveCollected | tutorial.py:914-916 | the object list becomes `RemoveAll(old, ids)`, and ids stay distinct |
| Levels.Level.RemoveObject | tutorial.py:915-916 | one `if obj in objects: objects.remove(obj)` turns the list into `RemoveId(old, id)` and keeps ids distinct |
| Collision.FirstHit | tutorial.py:824-827 | the first index, in list order, whose object the probe overlaps; none iff no object overlaps |
| Collision.Collide | tutorial.py:820-831 | the player is exactly where it started, and the result is the first object overlapping the shifted rectangle |
| Collision.WallSlide | tutorial.py:838-845 | sliding iff a side probe hit while falling with a jump spent. Only the slide flag and direction change. A left wall wins unless the player already faces left |
| Collision.WallSlideBetweenWallsFlips | tutorial.py:838-843 | between two walls the left-first rule flips the facing on every check |
| Collision.CheckWallSlide | tutorial.py:833-845 | the fields become `WallSlide` of the ±5 probe results |
| Collision.Snap | tutorial.py:809-814 | falling snaps the bottom to the object's top and lands; rising snaps the top to its bottom and negates y_vel; dy = 0 changes nothing |
| Collision.VerticalOutcome | tutorial.py:805-818 | the vertical pass reports overlapped objects in increasing list order. It changes only the vertical state, and nothing at all when nothing was met or dy = 0. Falling lands the player on the last object met. Rising into k objects negates y_vel k times |
| Collision.SnapTo | tutorial.py:809-814 | the fields become `Snap` |
| Collision.HandleVerticalCollision | tutorial.py:805-818 | the fields and the returned list are `Vertical` of the old state |
| Contacts.DispatchEntry | tutorial.py:873-904 | one entry of `to_check` changes the object list at most by turning on a checkpoint |
| Contacts.DispatchEntryFacts | tutorial.py:873-904 | one entry changes the player at most by the hit flag. It queues exactly the id of the fruit or potion it names, scores 100 for a fruit and 50 for a potion, and keeps the vitals valid and the level |
| Contacts.DispatchEntryEffects | tutorial.py:873-902 | per kind: a fire or an enemy sets the hit flag and deals 25 damage; a fruit scores 100, counts one and queues its id; a potion heals 25 up to max health, scores 50 and queues its id; an inactive checkpoint turns on, sets `checkpoint_reached` and records the player's x and y; the exit sets LEVEL_COMPLETE; an empty entry, a block or an active checkpoint changes nothing |
| Contacts.DispatchQueuesTouched | tutorial.py:872-889 | every fruit or potion named by an entry of `to_check` is queued, and nothing queued earlier is dropped |
| Contacts.DispatchKeepsEnd | tutorial.py:872-902 | once LEVEL_COMPLETE or GAME_OVER, the rest of the loop ends in one of the two; with no later fire or enemy, LEVEL_COMPLETE stays |
| Contacts.DispatchExitCompletes | tutorial.py:872-902 | touching the exit ends the loop in LEVEL_COMPLETE, or in GAME_OVER only if a later fire or enemy is touched; with none later, in LEVEL_COMPLETE |
| Contacts.DispatchOutcome | tutorial.py:873-904 | over the whole loop, objects keep their places and only checkpoints turn on. Only ids of fruits and potions are queued. Each fruit entry scores 100 and counts one fruit; each potion entry scores 50. Vitals stay valid |
| Contacts.HandleMoveRemovesTouched | tutorial.py:872-916 | a fruit or a potion named in `to_check` is queued, and no object with its id is left afterwards |
| Contacts.NonPickupKept | tutorial.py:914-916 | with distinct ids, an object that is neither a fruit nor a potion is never queued, so it survives the removal |
| Contacts.HazardTwice | tutorial.py:875-877 | the same fire or enemy twice in `to_check` deals damage twice |
| Contacts.FruitTwice | tutorial.py:878-916 | the same fruit twice scores 200 and counts two fruits, yet removes one object |
| Contacts.CheckpointOnce | tutorial.py:890-894 | a checkpoint turns on once. Touching it again changes nothing, and the first touch of an inactive one sets `checkpoint_reached` |
| Contacts.ExitAfterFatalHit | tutorial.py:875-902 | a fatal hit followed by the exit in the same `to_check` ends in LEVEL_COMPLETE with 0 lives |
| Contacts.ProjectileHitsClosedForm | tutorial.py:907-911 | the survivors are the projectiles missing the player, in order. n hits deal damage n times, and the hit flag is set iff n > 0 |
| Contacts.ProjectileHitsSafe | tutorial.py:907-911 | no survivor overlaps the player, and valid vitals stay valid |
| Contacts.Moved | tutorial.py:851-869 | every entry of `to_check` is empty or names an object of the list |
| Contacts.MovedEntries | tutorial.py:857-869 | `to_check` is the left probe at -10, the right probe at +10, then the vertical hits, each present, in strictly increasing list order |
| Contacts.MovedSteering | tutorial.py:853-869 | the x position is unchanged. With no arrow held, x_vel is that of friction. A held arrow sets its velocity iff its probe found nothing, left before right |
| Contacts.HandleMoveSpec | tutorial.py:847-849 | outside PLAYING nothing changes |
| Contacts.HandleMoveOutcome | tutorial.py:847-916 | valid vitals and the level are kept, and ids stay distinct. The surviving objects are the dispatched list without the queued ids, in order. Only fruits and potions are queued, so every other object survives. Every surviving projectile was there before and misses the player |
| Contacts.DispatchOne | tutorial.py:874-904 | one pass of the dispatch loop yields `DispatchEntry` |
| Contacts.DispatchAll | tutorial.py:872-904 | the loop yields `Dispatch` and returns the queued ids |
| Contacts.HitByProjectiles | tutorial.py:907-911 | the loop over the copy yields `ProjectileHits` |
| Contacts.Struck | tutorial.py:908-910 | on overlap with one projectile the player becomes `MakeHit` and the vitals take 15 damage; otherwise nothing changes |
| Contacts.MoveAndProbe | tutorial.py:851-869 | the movement half yields `Moved` |
| Contacts.HandleMove | tutorial.py:847-916 | the objects' new state is `HandleMoveSpec` of the old one, and ids stay distinct |
| Driver.Start | tutorial.py:935-942 | the loop starts in MENU with fresh vitals and `run` set |
| Driver.KeySpec | tutorial.py:951-998 | the status moves as `OnKey` says. While PLAYING, Space makes the player `Jump` and X makes it `Dash`, and nothing else changes. A level load puts a new player at (100, 100) with the level's objects, no projectiles and the camera at 0. Otherwise the lists are kept. `run` is cleared iff MENU+Q, and MENU+Q changes nothing else. The scene stays valid |
| Driver.EventsOutcome | tutorial.py:946-998 | the event loop keeps the scene valid. A cleared `run` stays cleared, and a QUIT event clears it |
| Driver.Respawn | tutorial.py:1019-1029 | a player whose top is more than 100 px below the window goes to the checkpoint position with 25 damage if a checkpoint was reached, else to (100, 100) with 50, and stops. Otherwise nothing changes. Validity is kept, and at most one life is lost |
| Driver.RespawnSettles | tutorial.py:1019-1029 | a respawn at the start, or at a checkpoint inside the world, does not trigger again |
| Driver.Camera | tutorial.py:1032-1034 | the offset moves by x_vel iff the player is inside the 200 px margin moving toward that edge. It never moves against the player's motion |
| Driver.CameraTracks | tutorial.py:1032-1034 | while the camera scrolls, the player's next step keeps its position on screen |
| Driver.Simulate | tutorial.py:1000-1034 | outside PLAYING the frame's tick changes nothing |
| Driver.Advanced | tutorial.py:1002-1009 | the object and player update leaves the vitals alone, and every projectile left is within the culling band |
| Driver.SimulateOutcome | tutorial.py:1000-1034 | a tick keeps the vitals valid, the ids distinct and the level. Only projectiles within the culling band remain |
| Driver.SimulateEnds | tutorial.py:1018-1034 | in PLAYING the tick ends with the camera rule applied to the player's final state. A player who started over from the spawn point or from a checkpoint within the world is back in it, so the fall-off check would not fire again |
| Driver.SessionOutcome | tutorial.py:942-1034 | over any run of frames, vitals stay valid and ids distinct. After a frame holding QUIT, nothing more happens |
| Driver.Game.constructor | tutorial.py:935-942 | the scene is `Start` |
| Driver.Game.Reload | tutorial.py:956-958 | a new player at (100, 100), level n's objects, no projectiles, the camera at 0 |
| Driver.Game.HandleKey | tutorial.py:951-998 | the scene becomes `KeySpec` of the old one |
| Driver.Game.ProcessEvents | tutorial.py:946-998 | the scene becomes `Events` of the old one |
| Driver.Game.CheckFall | tutorial.py:1019-1029 | the fields become `Respawn` of the old ones |
| Driver.Game.Tick | tutorial.py:1000-1034 | the scene becomes `Simulate` of the old one |
| Driver.Game.Advance | tutorial.py:1002-1009 | the enemy and projectile update, then `player.loop`, give `Advanced` of the old world |
| Driver.Game.Scroll | tutorial.py:1031-1034 | the camera offset becomes `Camera` of the old one |
| Driver.Game.RunFrame | tutorial.py:943-1034 | the scene becomes `NextFrame` of the old one |
| Driver.Game.Play | tutorial.py:942-1034 | `while run` over the given frames yields `Session` |

## Notes on the code as written

The model follows the code; several behaviours differ from what its
comments or a reader might expect, and the model keeps them:

- `update_sprite` tests for a bare "wall_slide" sheet, but sheet names carry
  a `_left`/`_right` suffix, so a wall slide shows the idle animation
  (`Movement.WallSlideShowsIdle`).
- Fire and enemy contacts deal 25 damage on every contact tick and for every
  entry of `to_check`; only the hit flag is idempotent (`Contacts.HazardTwice`).
- A fatal hit followed by the level exit in the same `to_check` still ends
  in LEVEL_COMPLETE, with 0 lives (`Contacts.ExitAfterFatalHit`).
- Nothing checks GAME_OVER before further damage, so lives can fall below 0
  (`Vitals.DamageAfterGameOver`).
- The same fruit can appear twice in `to_check`; it then scores twice but is
  removed once (`Contacts.FruitTwice`).
- Two ceiling overlaps in one vertical pass negate y_vel twice
  (`Collision.VerticalOutcome`).
- Holding left during a leftward dash clamps the dash to -max_speed at once
  (`Movement.MoveLeftCutsLeftDash`).
- Gravity reads the fall timer before incrementing it, so tick n of a free
  fall adds min(1, (n-1)/60) (`Movement.FreeFall`).
- GAME_OVER+R restarts level 1, whatever the comment says. MENU+Enter does
  not reset the vitals, and PAUSED+M keeps them (`Controls.OnKey`).
- Between two walls, the left-first wall-slide rule flips the facing on
  every check (`Collision.WallSlideBetweenWallsFlips`).
- The jumper's `jump_timer` is set and never read; a jumper patrols like a
  walker at its own speed and range.
- A QUIT event stops the event loop, but the rest of that frame, including
  its tick, still runs (`Driver.Events`, `Driver.Simulate`).

## Left out

- pygame initialisation, the window, the mixer and every sound: I/O with no
  effect on the state.
- Asset loading (`flip`, `load_sprite_sheets`, `get_block`,
  `get_background`, `create_fallback_sprites`). The player's sheets are a
  map from sheet name to frame count, given to the constructor.
  `create_fallback_sprites` reads undefined names and has no faithful model.
- All drawing (`draw_ui`, the menu and end screens, `Player.draw`,
  `Object.draw`, `draw`): it draws to the screen and changes no state.
- `pygame.sprite.collide_mask` and masks: they are replaced by the arbitrary
  overlap relation `ov`. One `ov` governs a whole session, and it sees only
  the two rectangles, not the kind of object or its sprite.
- Python floating-point rounding: velocities, positions and timer ramps are
  exact real numbers. Properties such as `Movement.RampSumRising` and
  `Movement.FreeFall` hold exactly in the reals, not necessarily in IEEE
  doubles.
- pygame's integer coercion of `Rect` coordinates, e.g. after the shooter's
  0.5 speed or a decayed x_vel. Positions are real numbers, and
  `rect.centerx` is x + w/2.
- `Player.update`, which resizes the rectangle to the current sprite and
  rebuilds the mask: sprite images are not modelled, so the rectangle keeps
  its size.
- `Fruit.update` (sinusoidal bobbing with a random phase) and the `Fire`
  animation and random flame heights: floating-point trigonometry,
  randomness and visuals. The bobbing moves a fruit's `rect.y` by up to 5 px
  either side of its place (tutorial.py:483-488), and the pickup test of
  `handle_move` reads that rectangle. The model keeps each fruit's box fixed,
  so the frame on which a fruit is touched can differ from the source.
- `create_level`: each layout is hand-written content. Layouts are a
  parameter `int -> seq<LevelObject>` whose ids are distinct.
- `clock.tick` and `pygame.event.get()`: each frame's events and held arrow
  keys are an input of the frame.
- `hit_head` also sets an attribute `count` that nothing reads; it is not
  modelled.
- Entities.ShotRate: proved only for a cooldown of at most 120, the only
  values a shooter reaches from its initial 0.
