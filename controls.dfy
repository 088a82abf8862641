/** The modal state machine of `main`: what one key press does in each mode. */
module Controls {
  import opened Vitals

  /** The keys `main` reacts to; every other key is `OtherKey`. */
  datatype Key = Return | KeyQ | Space | KeyX | KeyP | KeyM | KeyR | KeyN | OtherKey

  /** What the frame driver must do besides updating the status: reload a level
      (a new `Player` at (100, 100), fresh objects, camera reset), forward the
      key to the player, or stop the loop. */
  datatype Command = Stay | Quit | PlayerJump | PlayerDash | Load(level: int)

  /** One KEYDOWN event, as dispatched on the mode by `main`. */
  function OnKey(s: Status, k: Key): (r: (Status, Command))
    ensures Valid(s) ==> Valid(r.0)
    ensures r.1.Load? ==> r.0.mode == Playing && r.1.level == r.0.currentLevel
    ensures (r.1.PlayerJump? || r.1.PlayerDash?) ==> s.mode == Playing && r.0 == s
    // In PLAYING, Space and X are forwarded to the player and P pauses.
    ensures s.mode == Playing && k == Space ==> r == (s, PlayerJump)
    ensures s.mode == Playing && k == KeyX ==> r == (s, PlayerDash)
    ensures s.mode == Playing && k == KeyP ==> r == (s.(mode := Paused), Stay)
    // The only ways into PLAYING.
    ensures r.0.mode == Playing && s.mode != Playing ==>
              || (s.mode == Menu && k == Return)
              || (s.mode == Paused && k == KeyP)
              || (s.mode == GameOver && k == KeyR)
              || (s.mode == LevelComplete && k == KeyN && s.currentLevel < s.maxLevel)
    // MENU + Enter starts level 1 without resetting the vitals.
    ensures s.mode == Menu && k == Return ==> r == (s.(mode := Playing, currentLevel := 1), Load(1))
    // PAUSED + M returns to the menu keeping the vitals.
    ensures s.mode == Paused && k == KeyM ==> r == (s.(mode := Menu), Stay)
    // GAME_OVER + R restarts from level 1 with fresh vitals.
    ensures s.mode == GameOver && k == KeyR ==> r == (Initial().(mode := Playing), Load(1))
    ensures (s.mode == GameOver || s.mode == LevelComplete) && k == KeyM ==> r == (Initial(), Stay)
    // LEVEL_COMPLETE + N advances only below the last level.
    ensures s.mode == LevelComplete && k == KeyN ==>
              if s.currentLevel < s.maxLevel
              then r.0 == s.(mode := Playing, currentLevel := s.currentLevel + 1, checkpointReached := false)
              else r == (s, Stay)
    ensures r.1 == Quit <==> s.mode == Menu && k == KeyQ
  {
    match s.mode
    case Menu =>
      if k == Return then (s.(mode := Playing, currentLevel := 1), Load(1))
      else if k == KeyQ then (s, Quit)
      else (s, Stay)
    case Playing =>
      if k == Space then (s, PlayerJump)
      else if k == KeyX then (s, PlayerDash)
      else if k == KeyP then (s.(mode := Paused), Stay)
      else (s, Stay)
    case Paused =>
      if k == KeyP then (s.(mode := Playing), Stay)
      else if k == KeyM then (s.(mode := Menu), Stay)
      else (s, Stay)
    case GameOver =>
      if k == KeyR then (Initial().(mode := Playing, currentLevel := 1), Load(1))
      else if k == KeyM then (Initial(), Stay)
      else (s, Stay)
    case LevelComplete =>
      if k == KeyN && s.currentLevel < s.maxLevel then
        var next := s.currentLevel + 1;
        (s.(currentLevel := next, mode := Playing, checkpointReached := false), Load(next))
      else if k == KeyM then (Initial(), Stay)
      else (s, Stay)
  }

  /** Pausing and resuming is a round trip: nothing but the mode moved in between. */
  lemma PauseResume(s: Status)
    requires s.mode == Playing
    ensures OnKey(s, KeyP) == (s.(mode := Paused), Stay)
    ensures OnKey(OnKey(s, KeyP).0, KeyP) == (s, Stay)
  {
  }

  /** The inputs that change the status between frames: key presses, and the
      non-negative damage and healing that collisions and respawns apply. */
  datatype Input = Press(key: Key) | Hurt(damage: nat) | Cure(amount: nat)

  function Apply(s: Status, i: Input): Status
  {
    match i
    case Press(k) => OnKey(s, k).0
    case Hurt(d) => TakeDamage(s, d)
    case Cure(a) => Heal(s, a)
  }

  function Run(s: Status, inputs: seq<Input>): Status
    decreases |inputs|
  {
    if inputs == [] then s else Run(Apply(s, inputs[0]), inputs[1..])
  }

  /** Over any history of inputs, the level stays within [1, max_level], health
      within [0, max_health], and the last level remains the bound. */
  lemma {:induction false} RunKeepsValid(s: Status, inputs: seq<Input>)
    requires Valid(s) && s.maxLevel == LastLevel
    ensures Valid(Run(s, inputs))
    ensures Run(s, inputs).maxLevel == LastLevel
    decreases |inputs|
  {
    if inputs != [] {
      var next := Apply(s, inputs[0]);
      assert Valid(next) && next.maxLevel == LastLevel;
      RunKeepsValid(next, inputs[1..]);
    }
  }
}
