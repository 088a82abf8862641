/** The frame loop of `main`: key events dispatched on the mode, then, only while
    playing, one simulation tick (enemies and projectiles, the player's `loop`,
    `handle_move`, the fall-off respawn and the camera). The pure `Scene`
    functions specify it; the `Game` class runs it on the mutable objects. */
module Driver {
  import opened Common
  import opened Vitals
  import opened GameStates
  import opened Controls
  import opened Movement
  import opened Players
  import opened Entities
  import opened Levels
  import opened Contacts

  /** Where and how large a new `Player(100, 100, 50, 50)` is. */
  const SpawnX: real := 100.0
  const SpawnY: real := 100.0
  const PlayerSize: real := 50.0
  /** A player whose top is this far below the window has fallen off the world. */
  const FallLimit: real := Height + 100.0
  const CheckpointFallDamage: int := 25
  const StartFallDamage: int := 50
  /** Width of the band at either window edge inside which the camera follows. */
  const ScrollArea: real := 200.0

  /** What `pygame.event.get()` yields that `main` looks at. */
  datatype Event = QuitEvent | KeyDown(key: Key) | OtherEvent

  /** One frame's input: its events, then the arrow keys held during `handle_move`. */
  datatype FrameInput = FrameInput(events: seq<Event>, held: Held)

  /** The local state of `main`: the world, the camera offset and `run`. */
  datatype Scene = Scene(world: World, offset: real, running: bool)

  /** `create_level(n)` is given as a table of layouts, each with distinct objects. */
  ghost predicate LayoutsValid(layouts: int -> seq<LevelObject>) {
    forall n :: DistinctIds(layouts(n))
  }

  /** What every reachable scene keeps: valid vitals and distinct level objects. */
  predicate SceneValid(sc: Scene) {
    Vitals.Valid(sc.world.status) && DistinctIds(sc.world.objects)
  }

  /** A level freshly loaded: a new player at the spawn point, the level's
      objects, no projectiles, the camera at 0. */
  function Loaded(s: Status, n: int, layouts: int -> seq<LevelObject>, running: bool): Scene {
    Scene(World(s, NewBody(SpawnX, SpawnY, PlayerSize, PlayerSize), layouts(n), []), 0.0, running)
  }

  /** The state `main` sets up before its loop: the menu over level 1. */
  function Start(layouts: int -> seq<LevelObject>): (sc: Scene)
    ensures sc.world.status == Initial() && sc.running
    ensures LayoutsValid(layouts) ==> SceneValid(sc)
  {
    Loaded(Initial(), 1, layouts, true)
  }

  /** One KEYDOWN event: the status moves as the key table says; a jump or dash
      is forwarded to the player; a level load replaces player, objects,
      projectiles and camera; MENU + Q stops the loop. */
  function KeySpec(sc: Scene, k: Key, layouts: int -> seq<LevelObject>): (r: Scene)
    ensures r.world.status == OnKey(sc.world.status, k).0
    ensures OnKey(sc.world.status, k).1.Stay? ==> r == sc.(world := r.world) && r.world == sc.world.(status := r.world.status)
    ensures OnKey(sc.world.status, k).1.Load? ==>
              r == Loaded(r.world.status, r.world.status.currentLevel, layouts, sc.running)
    ensures !OnKey(sc.world.status, k).1.Load? ==> r.world.objects == sc.world.objects && r.world.projectiles == sc.world.projectiles
    ensures r.running <==> sc.running && !(sc.world.status.mode == Menu && k == KeyQ)
    // MENU + Q only clears `run`: the player, the lists and the camera stay.
    ensures OnKey(sc.world.status, k).1.Quit? ==>
              r == sc.(world := sc.world.(status := r.world.status), running := false)
    // While PLAYING, Space makes the player jump and X dash; nothing else changes.
    ensures sc.world.status.mode == Playing && k == Space ==> r == sc.(world := sc.world.(body := Jump(sc.world.body)))
    ensures sc.world.status.mode == Playing && k == KeyX ==> r == sc.(world := sc.world.(body := Dash(sc.world.body)))
    ensures SceneValid(sc) && LayoutsValid(layouts) ==> SceneValid(r)
  {
    var (s, cmd) := OnKey(sc.world.status, k);
    match cmd
    case Stay => sc.(world := sc.world.(status := s))
    case Quit => sc.(world := sc.world.(status := s), running := false)
    case PlayerJump => sc.(world := sc.world.(body := Jump(sc.world.body)))
    case PlayerDash => sc.(world := sc.world.(body := Dash(sc.world.body)))
    case Load(n) => Loaded(s, n, layouts, sc.running)
  }

  /** The event loop of one frame: events in order, until a QUIT event, which
      clears `run` and drops the rest of the frame's events. */
  function Events(sc: Scene, evs: seq<Event>, layouts: int -> seq<LevelObject>): Scene
    decreases |evs|
  {
    if evs == [] then sc
    else match evs[0]
      case QuitEvent => sc.(running := false)
      case KeyDown(k) => Events(KeySpec(sc, k, layouts), evs[1..], layouts)
      case OtherEvent => Events(sc, evs[1..], layouts)
  }

  /** The events keep the scene valid; once `run` is cleared it stays cleared,
      and a QUIT event always clears it. */
  lemma {:induction false} EventsOutcome(sc: Scene, evs: seq<Event>, layouts: int -> seq<LevelObject>)
    ensures SceneValid(sc) && LayoutsValid(layouts) ==> SceneValid(Events(sc, evs, layouts))
    ensures !sc.running ==> !Events(sc, evs, layouts).running
    ensures QuitEvent in evs ==> !Events(sc, evs, layouts).running
    decreases |evs|
  {
    if evs != [] {
      match evs[0]
      case QuitEvent =>
      case KeyDown(k) =>
        EventsOutcome(KeySpec(sc, k, layouts), evs[1..], layouts);
        assert QuitEvent in evs ==> QuitEvent in evs[1..];
      case OtherEvent =>
        EventsOutcome(sc, evs[1..], layouts);
        assert QuitEvent in evs ==> QuitEvent in evs[1..];
    }
  }

  /** The fall-off check of `main`: a player whose top is more than 100 px below
      the window goes back to the checkpoint for 25 damage if one was reached,
      else to the spawn point for 50, and stops; otherwise nothing changes. */
  function Respawn(w: World): (r: World)
    ensures w.body.box.y <= FallLimit ==> r == w
    ensures w.body.box.y > FallLimit ==>
              && r.objects == w.objects && r.projectiles == w.projectiles
              && r.body.xVel == 0.0 && r.body.yVel == 0.0
              && r.body == w.body.(box := r.body.box, xVel := 0.0, yVel := 0.0)
              && r.body.box.w == w.body.box.w && r.body.box.h == w.body.box.h
    ensures w.body.box.y > FallLimit && w.status.checkpointReached ==>
              && (r.body.box.x, r.body.box.y) == w.status.checkpointPos
              && r.status == TakeDamage(w.status, CheckpointFallDamage)
    ensures w.body.box.y > FallLimit && !w.status.checkpointReached ==>
              && r.body.box.x == SpawnX && r.body.box.y == SpawnY
              && r.status == TakeDamage(w.status, StartFallDamage)
    ensures Vitals.Valid(w.status) ==> Vitals.Valid(r.status)
    ensures r.status.lives == w.status.lives || r.status.lives == w.status.lives - 1
  {
    if w.body.box.y > FallLimit then
      var (pos, cost) :=
        if w.status.checkpointReached then (w.status.checkpointPos, CheckpointFallDamage)
        else ((SpawnX, SpawnY), StartFallDamage);
      var b := w.body.(box := w.body.box.(x := pos.0, y := pos.1), xVel := 0.0, yVel := 0.0);
      w.(body := b, status := TakeDamage(w.status, cost))
    else w
  }

  /** Respawning lands the player back in the world when it starts over from the
      spawn point, or from a checkpoint recorded within it: a second check at
      once does nothing more. */
  lemma RespawnSettles(w: World)
    requires !w.status.checkpointReached || w.status.checkpointPos.1 <= FallLimit
    ensures Respawn(Respawn(w)) == Respawn(w)
  {
    if w.body.box.y > FallLimit {
      var r := Respawn(w);
      assert r.body.box.y <= FallLimit;
    }
  }

  /** The camera rule: the offset follows the player's horizontal speed only
      while its right edge is within 200 px of the window's right edge moving
      right, or its left edge within 200 px of the left edge moving left. */
  function Camera(offset: real, b: Body): (r: real)
    ensures r == offset || r == offset + b.xVel
    ensures b.xVel > 0.0 ==> (r == offset + b.xVel <==> b.box.Right() - offset >= Width - ScrollArea)
    ensures b.xVel < 0.0 ==> (r == offset + b.xVel <==> b.box.x - offset <= ScrollArea)
    ensures b.xVel >= 0.0 ==> offset <= r
    ensures b.xVel <= 0.0 ==> r <= offset
  {
    if (b.box.Right() - offset >= Width - ScrollArea && b.xVel > 0.0)
       || (b.box.x - offset <= ScrollArea && b.xVel < 0.0)
    then offset + b.xVel
    else offset
  }

  /** While the camera scrolls, the player's next step leaves its position on
      screen where it was. */
  lemma CameraTracks(offset: real, b: Body)
    requires Camera(offset, b) != offset
    ensures b.box.Shift(b.xVel, 0.0).x - Camera(offset, b) == b.box.x - offset
    ensures b.box.Shift(b.xVel, 0.0).Right() - Camera(offset, b) == b.box.Right() - offset
  {
  }

  /** The simulation part of a frame, run only in PLAYING. */
  function Simulate(sc: Scene, held: Held, ov: Overlap, sprites: map<string, nat>): (r: Scene)
    requires SpritesValid(sprites)
    ensures sc.world.status.mode != Playing ==> r == sc
    ensures r.running == sc.running
  {
    if sc.world.status.mode != Playing then sc
    else
      var w := Respawn(HandleMoveSpec(Advanced(sc.world, sprites), held, ov));
      Scene(w, Camera(sc.offset, w.body), sc.running)
  }

  /** The steps of a tick before `handle_move`: enemies and projectiles, aimed
      at the player's centre, then the player's `loop`. */
  function Advanced(w: World, sprites: map<string, nat>): (r: World)
    requires SpritesValid(sprites)
    ensures r.status == w.status
    ensures forall q :: q in r.projectiles ==> OnScreen(q)
  {
    var upd := UpdateAll(w.objects, (w.body.box.CenterX(), w.body.box.CenterY()));
    World(w.status, Movement.Loop(w.body, Fps, sprites), upd.0, Cull(w.projectiles + upd.1))
  }

  /** A tick keeps the scene valid and the level number, and leaves only
      projectiles within the culling band. */
  lemma SimulateOutcome(sc: Scene, held: Held, ov: Overlap, sprites: map<string, nat>)
    requires SpritesValid(sprites) && SceneValid(sc)
    ensures SceneValid(Simulate(sc, held, ov, sprites))
    ensures Simulate(sc, held, ov, sprites).world.status.currentLevel == sc.world.status.currentLevel
    ensures sc.world.status.mode == Playing ==>
              forall q :: q in Simulate(sc, held, ov, sprites).world.projectiles ==> OnScreen(q)
  {
    if sc.world.status.mode == Playing {
      var w := sc.world;
      UpdateKeepsIds(w.objects, (w.body.box.CenterX(), w.body.box.CenterY()));
      HandleMoveOutcome(Advanced(w, sprites), held, ov);
    }
  }

  /** In PLAYING a tick ends with the fall-off check and the camera rule: the
      offset follows the player's final state, and a player who started over
      from the spawn point or from a checkpoint within the world is back in it,
      so a second check would change nothing. */
  lemma SimulateEnds(sc: Scene, held: Held, ov: Overlap, sprites: map<string, nat>)
    requires SpritesValid(sprites) && sc.world.status.mode == Playing
    ensures var r := Simulate(sc, held, ov, sprites);
      r.offset == Camera(sc.offset, r.world.body)
    ensures var r := Simulate(sc, held, ov, sprites).world;
      !r.status.checkpointReached || r.status.checkpointPos.1 <= FallLimit ==>
        r.body.box.y <= FallLimit && Respawn(r) == r
  {
    var m := HandleMoveSpec(Advanced(sc.world, sprites), held, ov);
    if !m.status.checkpointReached || m.status.checkpointPos.1 <= FallLimit {
      RespawnSettles(m);
    }
  }

  /** One frame of `main`'s loop: the events, then the tick. */
  function NextFrame(sc: Scene, f: FrameInput, ov: Overlap, sprites: map<string, nat>,
                 layouts: int -> seq<LevelObject>): Scene
    requires SpritesValid(sprites)
  {
    Simulate(Events(sc, f.events, layouts), f.held, ov, sprites)
  }

  /** `while run`: frames until one leaves `run` cleared. */
  function Session(sc: Scene, frames: seq<FrameInput>, ov: Overlap, sprites: map<string, nat>,
                layouts: int -> seq<LevelObject>): Scene
    requires SpritesValid(sprites)
    decreases |frames|
  {
    if frames == [] || !sc.running then sc
    else Session(NextFrame(sc, frames[0], ov, sprites, layouts), frames[1..], ov, sprites, layouts)
  }

  /** Over any run of frames, the vitals stay valid (health within
      [0, max_health], the level within [1, max_level]) and the level's objects
      stay distinct; after a frame holding QUIT, nothing more happens. */
  lemma {:induction false} SessionOutcome(sc: Scene, frames: seq<FrameInput>, ov: Overlap,
                                       sprites: map<string, nat>, layouts: int -> seq<LevelObject>)
    requires SpritesValid(sprites) && LayoutsValid(layouts) && SceneValid(sc)
    ensures SceneValid(Session(sc, frames, ov, sprites, layouts))
    ensures frames != [] && sc.running && QuitEvent in frames[0].events ==>
              Session(sc, frames, ov, sprites, layouts) == NextFrame(sc, frames[0], ov, sprites, layouts)
    decreases |frames|
  {
    if frames != [] && sc.running {
      var next := NextFrame(sc, frames[0], ov, sprites, layouts);
      var ev := Events(sc, frames[0].events, layouts);
      EventsOutcome(sc, frames[0].events, layouts);
      SimulateOutcome(ev, frames[0].held, ov, sprites);
      SessionOutcome(next, frames[1..], ov, sprites, layouts);
    }
  }

  /** The objects `main` juggles: its `game_state`, `player` and level lists,
      changed in place; reassigning `player` or `game_state` becomes a reset of
      the same object. */
  class Game {
    const gs: GameState
    const player: Player
    const level: Level
    const layouts: int -> seq<LevelObject>
    var offset: real
    var running: bool

    function Current(): Scene
      reads this, gs, player, level
    {
      Scene(World(gs.Snapshot(), player.State(), level.objects, level.projectiles), offset, running)
    }

    ghost predicate Valid()
      reads this, level
    {
      level.Valid() && SpritesValid(player.sprites) && LayoutsValid(layouts)
    }

    constructor (sheets: map<string, nat>, levels: int -> seq<LevelObject>)
      requires SpritesValid(sheets) && LayoutsValid(levels)
      ensures Valid() && player.sprites == sheets && layouts == levels
      ensures Current() == Start(levels)
    {
      gs := new GameState();
      player := new Player(SpawnX, SpawnY, PlayerSize, PlayerSize, sheets);
      level := new Level(levels(1));
      layouts := levels;
      offset := 0.0;
      running := true;
    }

    /** A new player, level `n`'s objects and projectiles, and the camera at 0. */
    method Reload(n: int)
      requires Valid()
      modifies this, player, level
      ensures Valid() && running == old(running)
      ensures Current() == Loaded(gs.Snapshot(), n, layouts, running)
    {
      player.SetState(NewBody(SpawnX, SpawnY, PlayerSize, PlayerSize));
      level.Load(layouts(n));
      offset := 0.0;
    }

    /** One KEYDOWN event. */
    method HandleKey(k: Key)
      requires Valid()
      modifies this, gs, player, level
      ensures Valid()
      ensures Current() == KeySpec(old(Current()), k, layouts)
    {
      var (s, cmd) := OnKey(gs.Snapshot(), k);
      gs.Assign(s);
      match cmd
      case Stay =>
      case Quit => running := false;
      case PlayerJump => player.Jump();
      case PlayerDash => player.Dash();
      case Load(n) => Reload(n);
    }

    /** The `for event in pygame.event.get()` loop. */
    method ProcessEvents(evs: seq<Event>)
      requires Valid()
      modifies this, gs, player, level
      ensures Valid()
      ensures Current() == Events(old(Current()), evs, layouts)
    {
      ghost var target := Events(Current(), evs, layouts);
      var i := 0;
      while i < |evs|
        invariant 0 <= i <= |evs|
        invariant Valid()
        invariant Events(Current(), evs[i..], layouts) == target
      {
        assert evs[i..][1..] == evs[i + 1..];
        if evs[i].QuitEvent? {
          running := false;
          return;
        } else if evs[i].KeyDown? {
          HandleKey(evs[i].key);
        }
        i := i + 1;
      }
      assert evs[i..] == [];
    }

    /** The fall-off check of `main`. */
    method CheckFall()
      modifies player, gs
      ensures World(gs.Snapshot(), player.State(), level.objects, level.projectiles)
           == Respawn(World(old(gs.Snapshot()), old(player.State()), level.objects, level.projectiles))
    {
      if player.box.y > FallLimit {
        if gs.checkpointReached {
          player.box := player.box.(x := gs.checkpointPos.0, y := gs.checkpointPos.1);
          gs.TakeDamage(CheckpointFallDamage);
        } else {
          player.box := player.box.(x := SpawnX, y := SpawnY);
          gs.TakeDamage(StartFallDamage);
        }
        player.xVel := 0.0;
        player.yVel := 0.0;
      }
    }

    /** The simulation block of `main`'s loop, guarded by PLAYING. */
    method Tick(held: Held, ov: Overlap)
      requires Valid()
      modifies this, gs, player, level
      ensures Valid()
      ensures Current() == Simulate(old(Current()), held, ov, player.sprites)
    {
      if gs.state != Playing {
        return;
      }
      Advance();
      HandleMove(player, level, gs, held, ov);
      CheckFall();
      Scroll();
    }

    /** Enemies and projectiles, then `player.loop(FPS)`. */
    method Advance()
      requires Valid()
      modifies level, player
      ensures Valid()
      ensures World(gs.Snapshot(), player.State(), level.objects, level.projectiles)
           == Advanced(World(gs.Snapshot(), old(player.State()), old(level.objects), old(level.projectiles)), player.sprites)
    {
      level.UpdateEnemiesAndProjectiles((player.box.CenterX(), player.box.CenterY()));
      player.Loop(Fps);
    }

    /** The camera scroll of `main`. */
    method Scroll()
      modifies this
      ensures offset == Camera(old(offset), player.State()) && running == old(running)
    {
      if (player.box.Right() - offset >= Width - ScrollArea && player.xVel > 0.0)
         || (player.box.x - offset <= ScrollArea && player.xVel < 0.0) {
        offset := offset + player.xVel;
      }
    }

    /** One pass of `while run`. */
    method RunFrame(f: FrameInput, ov: Overlap)
      requires Valid()
      modifies this, gs, player, level
      ensures Valid()
      ensures Current() == NextFrame(old(Current()), f, ov, player.sprites, layouts)
    {
      ProcessEvents(f.events);
      Tick(f.held, ov);
    }

    /** `while run:` over the given frames. */
    method Play(frames: seq<FrameInput>, ov: Overlap)
      requires Valid()
      modifies this, gs, player, level
      ensures Valid()
      ensures Current() == Session(old(Current()), frames, ov, player.sprites, layouts)
    {
      ghost var target := Session(Current(), frames, ov, player.sprites, layouts);
      var i := 0;
      while i < |frames| && running
        invariant 0 <= i <= |frames|
        invariant Valid()
        invariant Session(Current(), frames[i..], ov, player.sprites, layouts) == target
      {
        assert frames[i..][1..] == frames[i + 1..];
        RunFrame(frames[i], ov);
        i := i + 1;
      }
      assert i == |frames| ==> frames[i..] == [];
    }
  }
}
