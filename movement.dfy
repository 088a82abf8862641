/** The rules of the `Player` controller, as functions of the player's fields:
    jumping and wall jumping, dashing, the hit stun, horizontal acceleration and
    friction, the per-tick `loop` (gravity ramp, cooldowns, hit timer), landing,
    ceiling bounce, and the choice of animation frame. */
module Movement {
  import opened Common

  datatype Direction = Left | Right

  /** The sprite currently shown: a sheet name and a frame index in it.
      `NoFrame` stands for the time before the first `update_sprite`. */
  datatype Frame = NoFrame | Frame(sheet: string, index: nat)

  /** The fields of `Player` that the simulation reads and writes. */
  datatype Body = Body(
    box: Box,
    xVel: real,
    yVel: real,
    direction: Direction,
    animationCount: nat,
    fallCount: nat,
    jumpCount: nat,
    hit: bool,
    hitCount: nat,
    dashCooldown: nat,
    wallSlide: bool,
    wallJumpCooldown: nat,
    sprite: Frame)

  const Gravity: real := 1.0
  const AnimationDelay: nat := 3
  const JumpSpeed: real := 8.0
  const DashPower: real := 15.0
  const DashCooldownTicks: nat := 60
  const MaxSpeed: real := PlayerVel
  const WallJumpSpeed: real := 8.0
  const WallJumpCooldownTicks: nat := 10
  const WallSlideSpeed: real := 2.0
  const Acceleration: real := 0.3
  const FrictionFactor: real := 0.8
  const SpeedEpsilon: real := 0.1

  /** `Player(x, y, width, height)`: at rest, facing left, full jump budget. */
  function NewBody(x: real, y: real, w: real, h: real): (b: Body)
    ensures b.box == Box(x, y, w, h) && b.xVel == 0.0 && b.yVel == 0.0
    ensures b.jumpCount == 0 && !b.hit && b.hitCount == 0 && !b.wallSlide
    ensures b.dashCooldown == 0 && b.wallJumpCooldown == 0
    ensures b.direction == Left && b.fallCount == 0 && b.animationCount == 0 && b.sprite == NoFrame
  {
    Body(Box(x, y, w, h), 0.0, 0.0, Left, 0, 0, 0, false, 0, 0, false, 0, NoFrame)
  }

  /** True when `jump` does nothing: the budget of two jumps is spent and the
      player is not on a wall. */
  predicate JumpRefused(b: Body) { b.jumpCount >= 2 && !b.wallSlide }

  /** `jump`: an upward impulse. From a wall it is a wall jump: a push away from
      the wall, one jump spent and a 10-tick lock on horizontal input. The fall
      timer restarts exactly when this leaves one jump spent. */
  function Jump(b: Body): (r: Body)
    ensures JumpRefused(b) ==> r == b
    ensures !JumpRefused(b) ==>
      && r == b.(yVel := r.yVel, animationCount := 0, jumpCount := r.jumpCount, xVel := r.xVel,
                 wallJumpCooldown := r.wallJumpCooldown, fallCount := r.fallCount)
      && r.yVel == -JumpSpeed * Gravity
      && (b.wallSlide ==>
            && r.jumpCount == 1 && r.wallJumpCooldown == WallJumpCooldownTicks
            && r.xVel == (if b.direction == Left then WallJumpSpeed else -WallJumpSpeed))
      && (!b.wallSlide ==>
            r.jumpCount == b.jumpCount + 1 && r.xVel == b.xVel && r.wallJumpCooldown == b.wallJumpCooldown)
      && r.fallCount == (if r.jumpCount == 1 then 0 else b.fallCount)
    ensures b.jumpCount <= 2 ==> r.jumpCount <= 2
  {
    if b.jumpCount < 2 || b.wallSlide then
      var up := b.(yVel := -Gravity * 8.0, animationCount := 0);
      var spent :=
        if !b.wallSlide then up.(jumpCount := b.jumpCount + 1)
        else up.(xVel := if b.direction == Left then 8.0 else -8.0, wallJumpCooldown := 10, jumpCount := 1);
      if spent.jumpCount == 1 then spent.(fallCount := 0) else spent
    else b
  }

  /** `dash`: while the cooldown runs nothing happens; otherwise the horizontal
      speed becomes exactly the dash power in the facing direction and the
      60-tick cooldown starts. */
  function Dash(b: Body): (r: Body)
    ensures b.dashCooldown > 0 ==> r == b
    ensures b.dashCooldown == 0 ==>
      r == b.(xVel := if b.direction == Right then DashPower else -DashPower, dashCooldown := DashCooldownTicks)
  {
    if b.dashCooldown <= 0 then
      b.(xVel := if b.direction == Right then DashPower else -DashPower, dashCooldown := 60)
    else b
  }

  /** `make_hit`: sets the hit flag; a player already hit is left as is. */
  function MakeHit(b: Body): (r: Body)
    ensures r.hit
    ensures b.hit ==> r == b
    ensures r == b.(hit := true)
  {
    if !b.hit then b.(hit := true) else b
  }

  /** `move_left(vel)`: unless a wall jump locks the input, the speed shifts left
      by 0.3 vel but not past -max_speed; turning left restarts the animation. */
  function MoveLeft(b: Body, vel: real): (r: Body)
    ensures r == b.(xVel := r.xVel, direction := Left, animationCount := r.animationCount)
    ensures b.wallJumpCooldown > 0 ==> r.xVel == b.xVel
    ensures b.wallJumpCooldown == 0 ==> r.xVel == Max(-MaxSpeed, b.xVel - vel * Acceleration)
    ensures b.wallJumpCooldown == 0 ==> r.xVel >= -MaxSpeed
    ensures b.wallJumpCooldown == 0 && vel >= 0.0 && b.xVel >= -MaxSpeed ==> r.xVel <= b.xVel
    ensures r.animationCount == if b.direction != Left then 0 else b.animationCount
  {
    var moved := if b.wallJumpCooldown <= 0 then b.(xVel := Max(-MaxSpeed, b.xVel - vel * 0.3)) else b;
    if b.direction != Left then moved.(direction := Left, animationCount := 0) else moved
  }

  /** `move_right(vel)`: the mirror image of `move_left`. */
  function MoveRight(b: Body, vel: real): (r: Body)
    ensures r == b.(xVel := r.xVel, direction := Right, animationCount := r.animationCount)
    ensures b.wallJumpCooldown > 0 ==> r.xVel == b.xVel
    ensures b.wallJumpCooldown == 0 ==> r.xVel == Min(MaxSpeed, b.xVel + vel * Acceleration)
    ensures b.wallJumpCooldown == 0 ==> r.xVel <= MaxSpeed
    ensures b.wallJumpCooldown == 0 && vel >= 0.0 && b.xVel <= MaxSpeed ==> r.xVel >= b.xVel
    ensures r.animationCount == if b.direction != Right then 0 else b.animationCount
  {
    var moved := if b.wallJumpCooldown <= 0 then b.(xVel := Min(MaxSpeed, b.xVel + vel * 0.3)) else b;
    if b.direction != Right then moved.(direction := Right, animationCount := 0) else moved
  }

  /** `apply_friction`: speed decays by the factor 0.8 and snaps to exactly zero
      once within 0.1 of it; it never grows and never changes sign. */
  function ApplyFriction(b: Body): (r: Body)
    ensures r == b.(xVel := r.xVel)
    ensures Abs(r.xVel) <= Abs(b.xVel)
    ensures r.xVel == 0.0 <==> Abs(b.xVel) <= SpeedEpsilon
    ensures Abs(b.xVel) > SpeedEpsilon ==> r.xVel == b.xVel * FrictionFactor
    ensures (b.xVel >= 0.0 ==> r.xVel >= 0.0) && (b.xVel <= 0.0 ==> r.xVel <= 0.0)
  {
    if Abs(b.xVel) > 0.1 then b.(xVel := b.xVel * 0.8) else b.(xVel := 0.0)
  }

  /** The sheets loaded for the player: every frame count is positive, and the
      idle sheets that `update_sprite` falls back on exist. */
  predicate SpritesValid(sprites: map<string, nat>) {
    && "idle_left" in sprites && "idle_right" in sprites
    && forall k :: k in sprites ==> sprites[k] > 0
  }

  function DirectionName(d: Direction): string {
    if d == Left then "left" else "right"
  }

  /** The animation state chosen by `update_sprite`, by priority:
      hit, then wall slide, then ascending (jump or double jump by jump count),
      then falling faster than 2, then running faster than 0.1, then idle. */
  function AnimationState(b: Body, sprites: map<string, nat>): (s: string)
    ensures b.hit ==> s == "hit"
    ensures !b.hit && b.wallSlide ==> s == (if "wall_slide" in sprites then "wall_slide" else "idle")
    ensures !b.hit && !b.wallSlide && b.yVel < 0.0 ==>
              s == (if b.jumpCount == 1 then "jump" else if b.jumpCount == 2 then "double_jump" else "idle")
    ensures !b.hit && !b.wallSlide && 0.0 <= b.yVel && b.yVel > Gravity * 2.0 ==> s == "fall"
    ensures !b.hit && !b.wallSlide && 0.0 <= b.yVel <= Gravity * 2.0 && Abs(b.xVel) > SpeedEpsilon ==> s == "run"
    ensures !b.hit && !b.wallSlide && 0.0 <= b.yVel <= Gravity * 2.0 && Abs(b.xVel) <= SpeedEpsilon ==> s == "idle"
  {
    if b.hit then "hit"
    else if b.wallSlide then (if "wall_slide" in sprites then "wall_slide" else "idle")
    else if b.yVel < 0.0 then
      (if b.jumpCount == 1 then "jump" else if b.jumpCount == 2 then "double_jump" else "idle")
    else if b.yVel > Gravity * 2.0 then "fall"
    else if Abs(b.xVel) > 0.1 then "run"
    else "idle"
  }

  /** The sheet `update_sprite` shows: the state's sheet for the facing
      direction, or the idle sheet for that direction when it is missing. */
  function SheetKey(b: Body, sprites: map<string, nat>): (key: string)
    requires SpritesValid(sprites)
    ensures key in sprites
    ensures AnimationState(b, sprites) + "_" + DirectionName(b.direction) in sprites ==>
              key == AnimationState(b, sprites) + "_" + DirectionName(b.direction)
    ensures AnimationState(b, sprites) + "_" + DirectionName(b.direction) !in sprites ==>
              key == "idle_" + DirectionName(b.direction)
  {
    var name := AnimationState(b, sprites) + "_" + DirectionName(b.direction);
    if name in sprites then name
    else
      assert "idle_" + "left" == "idle_left" && "idle_" + "right" == "idle_right";
      "idle_" + DirectionName(b.direction)
  }

  /** `(animation_count // ANIMATION_DELAY) % len(sprites)`. */
  function FrameIndex(count: nat, frames: nat): (i: nat)
    requires frames > 0
    ensures i < frames
  {
    (count / AnimationDelay) % frames
  }

  /** `update_sprite`: pick the frame, then advance the animation counter. */
  function UpdateSprite(b: Body, sprites: map<string, nat>): (r: Body)
    requires SpritesValid(sprites)
    ensures r == b.(sprite := r.sprite, animationCount := b.animationCount + 1)
    ensures r.sprite.Frame? && r.sprite.sheet == SheetKey(b, sprites)
    ensures r.sprite.index == FrameIndex(b.animationCount, sprites[r.sprite.sheet])
  {
    var key := SheetKey(b, sprites);
    b.(sprite := Frame(key, FrameIndex(b.animationCount, sprites[key])), animationCount := b.animationCount + 1)
  }

  /** The new vertical speed of `loop`: capped at 2 while sliding down a wall,
      otherwise raised by the gravity ramp min(1, fall_count / fps). */
  function FallSpeed(b: Body, fps: nat): real
    requires fps > 0
  {
    if b.wallSlide && b.yVel > 0.0 then Min(b.yVel, 2.0)
    else b.yVel + Min(1.0, (b.fallCount as real / fps as real) * Gravity)
  }

  /** Gravity, then the move by the velocity. */
  function Fall(b: Body, fps: nat): Body
    requires fps > 0
  {
    var vy := FallSpeed(b, fps);
    b.(yVel := vy, box := b.box.Shift(b.xVel, vy))
  }

  /** The timers of `loop`: the hit timer (cleared once it passes half a
      second), the two cooldowns (never below 0) and the fall timer. */
  function Timers(b: Body, fps: nat): Body {
    var hc := if b.hit then b.hitCount + 1 else b.hitCount;
    var expired := hc as real > fps as real * 0.5;
    b.(
      hit := if expired then false else b.hit,
      hitCount := if expired then 0 else hc,
      dashCooldown := if b.dashCooldown > 0 then b.dashCooldown - 1 else b.dashCooldown,
      wallJumpCooldown := if b.wallJumpCooldown > 0 then b.wallJumpCooldown - 1 else b.wallJumpCooldown,
      fallCount := b.fallCount + 1)
  }

  /** The part of `loop` before `update_sprite`. */
  function Tick(b: Body, fps: nat): Body
    requires fps > 0
  {
    Timers(Fall(b, fps), fps)
  }

  /** `loop(fps)`: `Tick`, then the sprite. */
  function Loop(b: Body, fps: nat, sprites: map<string, nat>): (r: Body)
    requires fps > 0 && SpritesValid(sprites)
    ensures b.wallSlide && b.yVel > 0.0 ==> r.yVel == Min(b.yVel, WallSlideSpeed) && r.yVel <= WallSlideSpeed
    ensures !(b.wallSlide && b.yVel > 0.0) ==>
              r.yVel == b.yVel + Min(1.0, b.fallCount as real / fps as real * Gravity)
    ensures r.box == b.box.Shift(b.xVel, r.yVel)
    ensures r.xVel == b.xVel && r.direction == b.direction && r.jumpCount == b.jumpCount
    ensures r.wallSlide == b.wallSlide
    ensures r.fallCount == b.fallCount + 1
    ensures r.dashCooldown == if b.dashCooldown > 0 then b.dashCooldown - 1 else 0
    ensures r.wallJumpCooldown == if b.wallJumpCooldown > 0 then b.wallJumpCooldown - 1 else 0
    ensures r.hit <==> b.hit && 2 * (b.hitCount + 1) <= fps
    ensures b.hit && r.hit ==> r.hitCount == b.hitCount + 1
    ensures !r.hit && 2 * b.hitCount <= fps ==> r.hitCount == (if b.hit then 0 else b.hitCount)
    ensures r.animationCount == b.animationCount + 1
    ensures r.sprite.Frame? && r.sprite.sheet in sprites && r.sprite.index < sprites[r.sprite.sheet]
  {
    UpdateSprite(Tick(b, fps), sprites)
  }

  /** `landed`: back on the ground, whatever the state before. */
  function Landed(b: Body): (r: Body)
    ensures r == b.(fallCount := 0, yVel := 0.0, jumpCount := 0, wallSlide := false)
    ensures !JumpRefused(r) && r.jumpCount == 0
  {
    b.(fallCount := 0, yVel := 0.0, jumpCount := 0, wallSlide := false)
  }

  /** `hit_head`: the vertical speed is reversed, so a rising player now falls.
      (The source's `self.count = 0` sets an attribute nothing reads.) */
  function HitHead(b: Body): (r: Body)
    ensures r == b.(yVel := r.yVel)
    ensures r.yVel == -b.yVel
    ensures b.yVel < 0.0 ==> r.yVel > 0.0
    ensures r.(yVel := -r.yVel) == b
  {
    b.(yVel := -b.yVel)
  }

  // ---------------------------------------------------------------------
  // Properties over several ticks.

  function LoopN(b: Body, n: nat, fps: nat, sprites: map<string, nat>): Body
    requires fps > 0 && SpritesValid(sprites)
    decreases n
  {
    if n == 0 then b else LoopN(Loop(b, fps, sprites), n - 1, fps, sprites)
  }

  /** The gravity added over `n` ticks of free fall starting with fall timer `f`:
      the sum of min(1, k / fps) for k = f .. f + n - 1. */
  function RampSum(f: nat, n: nat, fps: nat): real
    requires fps > 0
    decreases n
  {
    if n == 0 then 0.0 else Min(1.0, f as real / fps as real) + RampSum(f + 1, n - 1, fps)
  }

  /** Free fall off a wall: after `n` ticks the vertical speed has grown by the
      ramp sum and the fall timer by `n`. From a landing (timer 0), tick k adds
      min(1, (k - 1) / fps), because the timer is read before it is incremented. */
  lemma {:induction false} FreeFall(b: Body, n: nat, fps: nat, sprites: map<string, nat>)
    requires fps > 0 && SpritesValid(sprites) && !b.wallSlide
    ensures LoopN(b, n, fps, sprites).yVel == b.yVel + RampSum(b.fallCount, n, fps)
    ensures LoopN(b, n, fps, sprites).fallCount == b.fallCount + n
    ensures !LoopN(b, n, fps, sprites).wallSlide
    decreases n
  {
    if n > 0 {
      var next := Loop(b, fps, sprites);
      FreeFall(next, n - 1, fps, sprites);
    }
  }

  /** While the ramp is still rising the sum has a closed form:
      RampSum(f, n) = (n f + n (n - 1) / 2) / fps. */
  lemma RampSumRising(f: nat, n: nat, fps: nat)
    requires fps > 0 && f + n <= fps + 1
    ensures RampSum(f, n, fps) == (2 * n * f + n * (n - 1)) as real / (2 * fps) as real
  {
    RampSumTwice(f, n, fps);
    TwiceSumClosed(f, n);
  }

  /** Twice the sum of the timers f .. f + n - 1. */
  function TwiceSum(f: nat, n: nat): nat
    decreases n
  {
    if n == 0 then 0 else 2 * f + TwiceSum(f + 1, n - 1)
  }

  /** Gauss's closed form of `TwiceSum`. */
  lemma {:induction false} TwiceSumClosed(f: nat, n: nat)
    ensures TwiceSum(f, n) == 2 * n * f + n * (n - 1)
    decreases n
  {
    if n > 0 {
      TwiceSumClosed(f + 1, n - 1);
      assert 2 * f + 2 * (n - 1) * (f + 1) + (n - 1) * (n - 2) == 2 * n * f + n * (n - 1);
    }
  }

  /** While the ramp rises, each term of the sum is the timer over fps. */
  lemma {:induction false} RampSumTwice(f: nat, n: nat, fps: nat)
    requires fps > 0 && f + n <= fps + 1
    ensures RampSum(f, n, fps) == TwiceSum(f, n) as real / (2 * fps) as real
    decreases n
  {
    if n > 0 {
      RampSumTwice(f + 1, n - 1, fps);
      RampSumHead(f, n, fps);
      RampStep(RampSum(f, n, fps), RampSum(f + 1, n - 1, fps), fps as real, (2 * fps) as real,
               f as real, TwiceSum(f + 1, n - 1) as real, TwiceSum(f, n) as real);
    }
  }

  /** While the timer is at most fps, the first term of the sum is f / fps. */
  lemma RampSumHead(f: nat, n: nat, fps: nat)
    requires fps > 0 && n > 0 && f <= fps
    ensures RampSum(f, n, fps) == f as real / fps as real + RampSum(f + 1, n - 1, fps)
  {
    RatioAtMostOne(f as real, fps as real);
  }

  /** The real-number step of `RampSumTwice`: the first term f / F is 2f / 2F. */
  lemma RampStep(x: real, rest: real, F: real, D: real, f: real, s: real, t: real)
    requires F > 0.0 && D == 2.0 * F && x == f / F + rest
    requires rest == s / D && 2.0 * f + s == t
    ensures x == t / D
  {
    assert f / F == (2.0 * f) / D;
  }

  lemma RatioAtMostOne(a: real, b: real)
    requires 0.0 <= a <= b && b > 0.0
    ensures a / b <= 1.0
  {
    assert (a / b) * b == a;
  }

  /** Once the fall timer has reached fps, gravity adds exactly 1 per tick. */
  lemma {:induction false} RampSumSaturated(f: nat, n: nat, fps: nat)
    requires fps > 0 && f >= fps
    ensures RampSum(f, n, fps) == n as real
    decreases n
  {
    if n > 0 {
      assert f as real / fps as real >= 1.0 by {
        assert f as real >= fps as real;
      }
      RampSumSaturated(f + 1, n - 1, fps);
    }
  }

  /** After a dash, each tick takes one off the cooldown: for 60 ticks another dash
      is refused, and on the 60th tick it is allowed again. */
  lemma {:induction false} DashRecharge(b: Body, k: nat, fps: nat, sprites: map<string, nat>)
    requires fps > 0 && SpritesValid(sprites) && b.dashCooldown == 0 && k <= DashCooldownTicks
    ensures LoopN(Dash(b), k, fps, sprites).dashCooldown == DashCooldownTicks - k
    ensures var after := LoopN(Dash(b), k, fps, sprites); (Dash(after) == after <==> k < DashCooldownTicks)
  {
    CooldownTicksDown(Dash(b), k, fps, sprites);
  }

  lemma {:induction false} CooldownTicksDown(b: Body, k: nat, fps: nat, sprites: map<string, nat>)
    requires fps > 0 && SpritesValid(sprites) && k <= b.dashCooldown
    ensures LoopN(b, k, fps, sprites).dashCooldown == b.dashCooldown - k
    decreases k
  {
    if k > 0 {
      CooldownTicksDown(Loop(b, fps, sprites), k - 1, fps, sprites);
    }
  }

  /** The hit stun: a player hit while not stunned stays stunned for
      `fps / 2 + 1` ticks (31 at 60 fps) and is then clear again, with the hit
      timer back at 0. */
  lemma {:induction false} HitWindow(b: Body, k: nat, fps: nat, sprites: map<string, nat>)
    requires fps > 0 && SpritesValid(sprites) && !b.hit && b.hitCount == 0
    ensures 2 * k <= fps ==> LoopN(MakeHit(b), k, fps, sprites).hit && LoopN(MakeHit(b), k, fps, sprites).hitCount == k
    ensures k == fps / 2 + 1 ==> !LoopN(MakeHit(b), k, fps, sprites).hit && LoopN(MakeHit(b), k, fps, sprites).hitCount == 0
  {
    if 2 * k <= fps {
      StunHolds(MakeHit(b), k, fps, sprites);
    } else if k == fps / 2 + 1 {
      StunHolds(MakeHit(b), k - 1, fps, sprites);
      var before := LoopN(MakeHit(b), k - 1, fps, sprites);
      LoopNSplit(MakeHit(b), k - 1, fps, sprites);
      assert LoopN(MakeHit(b), k, fps, sprites) == Loop(before, fps, sprites);
    }
  }

  lemma {:induction false} StunHolds(b: Body, k: nat, fps: nat, sprites: map<string, nat>)
    requires fps > 0 && SpritesValid(sprites) && b.hit && 2 * (b.hitCount + k) <= fps
    ensures LoopN(b, k, fps, sprites).hit && LoopN(b, k, fps, sprites).hitCount == b.hitCount + k
    decreases k
  {
    if k > 0 {
      StunHolds(Loop(b, fps, sprites), k - 1, fps, sprites);
    }
  }

  /** One more tick after `k` ticks. */
  lemma {:induction false} LoopNSplit(b: Body, k: nat, fps: nat, sprites: map<string, nat>)
    requires fps > 0 && SpritesValid(sprites)
    ensures LoopN(b, k + 1, fps, sprites) == Loop(LoopN(b, k, fps, sprites), fps, sprites)
    decreases k
  {
    if k > 0 {
      LoopNSplit(Loop(b, fps, sprites), k - 1, fps, sprites);
    }
  }

  /** From the ground the budget allows exactly two jumps: a third press does nothing. */
  lemma DoubleJumpBudget(b: Body)
    requires b.jumpCount == 0 && !b.wallSlide
    ensures Jump(b).jumpCount == 1 && Jump(Jump(b)).jumpCount == 2
    ensures Jump(Jump(Jump(b))) == Jump(Jump(b))
    ensures Jump(Landed(Jump(Jump(b)))).jumpCount == 1
  {
  }

  /** Holding left during a leftward dash clamps the dash to -max_speed at once. */
  lemma MoveLeftCutsLeftDash(b: Body)
    requires b.direction == Left && b.dashCooldown == 0 && b.wallJumpCooldown == 0
    ensures Dash(b).xVel == -DashPower
    ensures MoveLeft(Dash(b), PlayerVel).xVel == -MaxSpeed
  {
  }

  /** Every change the controller and the collision code make to the player. */
  datatype Op =
    | DoJump | DoDash | DoMakeHit | DoMoveLeft(vel: real) | DoMoveRight(vel: real)
    | DoFriction | DoLoop | DoLanded | DoHitHead
    | SetWallSlide(on: bool, facing: Direction)
    | Place(box: Box)
    | Stop

  function Step(b: Body, op: Op, fps: nat, sprites: map<string, nat>): Body
    requires fps > 0 && SpritesValid(sprites)
  {
    match op
    case DoJump => Jump(b)
    case DoDash => Dash(b)
    case DoMakeHit => MakeHit(b)
    case DoMoveLeft(vel) => MoveLeft(b, vel)
    case DoMoveRight(vel) => MoveRight(b, vel)
    case DoFriction => ApplyFriction(b)
    case DoLoop => Loop(b, fps, sprites)
    case DoLanded => Landed(b)
    case DoHitHead => HitHead(b)
    case SetWallSlide(on, facing) => b.(wallSlide := on, direction := facing)
    case Place(box) => b.(box := box)
    case Stop => b.(xVel := 0.0, yVel := 0.0)
  }

  function Steps(b: Body, ops: seq<Op>, fps: nat, sprites: map<string, nat>): Body
    requires fps > 0 && SpritesValid(sprites)
    decreases |ops|
  {
    if ops == [] then b else Steps(Step(b, ops[0], fps, sprites), ops[1..], fps, sprites)
  }

  /** The jump count stays in {0, 1, 2} whatever the player does. */
  lemma {:induction false} JumpCountBounded(b: Body, ops: seq<Op>, fps: nat, sprites: map<string, nat>)
    requires fps > 0 && SpritesValid(sprites) && b.jumpCount <= 2
    ensures Steps(b, ops, fps, sprites).jumpCount <= 2
    decreases |ops|
  {
    if ops != [] {
      JumpCountBounded(Step(b, ops[0], fps, sprites), ops[1..], fps, sprites);
    }
  }

  /** The hit stun is coherent whatever the player does: the timer is 0 when not
      hit, and never past half a second while hit. */
  predicate StunCoherent(b: Body, fps: nat) {
    (!b.hit ==> b.hitCount == 0) && 2 * b.hitCount <= fps
  }

  lemma {:induction false} StunStaysCoherent(b: Body, ops: seq<Op>, fps: nat, sprites: map<string, nat>)
    requires fps > 0 && SpritesValid(sprites) && StunCoherent(b, fps)
    ensures StunCoherent(Steps(b, ops, fps, sprites), fps)
    decreases |ops|
  {
    if ops != [] {
      StunStaysCoherent(Step(b, ops[0], fps, sprites), ops[1..], fps, sprites);
    }
  }

  /** The frame index stays put for 3 ticks, then moves on by one, wrapping round. */
  lemma FrameAdvances(count: nat, frames: nat)
    requires frames > 0
    ensures FrameIndex(count + AnimationDelay, frames) == (FrameIndex(count, frames) + 1) % frames
    ensures FrameIndex(count - count % AnimationDelay, frames) == FrameIndex(count, frames)
  {
    var q := count / AnimationDelay;
    assert (count + AnimationDelay) / AnimationDelay == q + 1;
    assert (count - count % AnimationDelay) / AnimationDelay == q;
    ModSucc(q, frames);
  }

  lemma ModSucc(a: nat, n: nat)
    requires n > 0
    ensures (a + 1) % n == (a % n + 1) % n
  {
    var q, r := a / n, a % n;
    if r + 1 < n {
      ModUnique(a + 1, n, q, r + 1);
      ModUnique(r + 1, n, 0, r + 1);
    } else {
      assert (q + 1) * n == q * n + n;
      ModUnique(a + 1, n, q + 1, 0);
      ModUnique(n, n, 1, 0);
    }
  }

  /** Euclidean division has one quotient and one remainder. */
  lemma ModUnique(a: nat, n: nat, q: nat, r: nat)
    requires n > 0 && r < n && a == q * n + r
    ensures a % n == r
  {
    var q', r' := a / n, a % n;
    assert (q - q') * n == r' - r by {
      assert a == q' * n + r';
      assert (q - q') * n == q * n - q' * n;
    }
    SmallMultipleIsZero(q - q', n);
  }

  lemma SmallMultipleIsZero(d: int, n: int)
    requires n > 0 && -n < d * n < n
    ensures d == 0
  {
    if d >= 1 {
      MultipleAtLeast(d, n);
      assert false;
    } else if d <= -1 {
      MultipleAtMost(d, n);
      assert false;
    }
  }

  lemma {:induction false} MultipleAtMost(d: int, n: int)
    requires d <= -1 && n > 0
    ensures d * n <= -n
    decreases -d
  {
    if d < -1 {
      MultipleAtMost(d + 1, n);
      assert d * n == (d + 1) * n - n;
    }
  }

  lemma {:induction false} MultipleAtLeast(d: int, n: int)
    requires d >= 1 && n > 0
    ensures d * n >= n
    decreases d
  {
    if d > 1 {
      MultipleAtLeast(d - 1, n);
      assert d * n == (d - 1) * n + n;
    }
  }

  /** The keys the sprite loader produces always end in "_left" or "_right". */
  predicate DirectionalKey(k: string) {
    (|k| >= 5 && k[|k| - 5..] == "_left") || (|k| >= 6 && k[|k| - 6..] == "_right")
  }

  /** `update_sprite` asks for a bare "wall_slide" key, which such a table never
      holds: with directional sheets, a wall slide shows the idle animation. */
  lemma WallSlideShowsIdle(b: Body, sprites: map<string, nat>)
    requires forall k :: k in sprites ==> DirectionalKey(k)
    requires !b.hit && b.wallSlide
    ensures AnimationState(b, sprites) == "idle"
  {
    var w := "wall_slide";
    assert w[|w| - 5..] == "slide";
    assert w[|w| - 6..] == "_slide";
    assert !DirectionalKey(w);
  }
}
