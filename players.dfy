/** The `Player` object: its fields, changed in place by its methods, each proved
    to make exactly the change the matching rule of `Movement` describes. */
module Players {
  import opened Common
  import opened Movement

  class Player {
    var box: Box
    var xVel: real
    var yVel: real
    var direction: Direction
    var animationCount: nat
    var fallCount: nat
    var jumpCount: nat
    var hit: bool
    var hitCount: nat
    var dashCooldown: nat
    var wallSlide: bool
    var wallJumpCooldown: nat
    var sprite: Frame
    /** Frame counts of the loaded sprite sheets, by sheet name. */
    const sprites: map<string, nat>

    function State(): Body
      reads this
    {
      Body(box, xVel, yVel, direction, animationCount, fallCount, jumpCount,
           hit, hitCount, dashCooldown, wallSlide, wallJumpCooldown, sprite)
    }

    /** Overwrite every field that `State` covers. */
    method SetState(b: Body)
      modifies this
      ensures State() == b
    {
      box, xVel, yVel, direction, animationCount, fallCount, jumpCount,
        hit, hitCount, dashCooldown, wallSlide, wallJumpCooldown, sprite :=
        b.box, b.xVel, b.yVel, b.direction, b.animationCount, b.fallCount, b.jumpCount,
        b.hit, b.hitCount, b.dashCooldown, b.wallSlide, b.wallJumpCooldown, b.sprite;
    }

    constructor (x: real, y: real, width: real, height: real, sheets: map<string, nat>)
      requires SpritesValid(sheets)
      ensures sprites == sheets
      ensures State() == NewBody(x, y, width, height)
    {
      box := Box(x, y, width, height);
      xVel, yVel := 0.0, 0.0;
      direction := Left;
      animationCount, fallCount, jumpCount := 0, 0, 0;
      hit, hitCount := false, 0;
      dashCooldown := 0;
      wallSlide, wallJumpCooldown := false, 0;
      sprite := NoFrame;
      sprites := sheets;
    }

    method Jump()
      modifies this
      ensures State() == Movement.Jump(old(State()))
    {
      if jumpCount < 2 || wallSlide {
        yVel := -Gravity * 8.0;
        animationCount := 0;
        if !wallSlide {
          jumpCount := jumpCount + 1;
        } else {
          xVel := if direction == Left then 8.0 else -8.0;
          wallJumpCooldown := 10;
          jumpCount := 1;
        }
        if jumpCount == 1 {
          fallCount := 0;
        }
      }
    }

    method Dash()
      modifies this
      ensures State() == Movement.Dash(old(State()))
    {
      if dashCooldown <= 0 {
        if direction == Right {
          xVel := DashPower;
        } else {
          xVel := -DashPower;
        }
        dashCooldown := 60;
      }
    }

    method Move(dx: real, dy: real)
      modifies this
      ensures State() == old(State()).(box := old(box).Shift(dx, dy))
    {
      box := box.Shift(dx, dy);
    }

    method MakeHit()
      modifies this
      ensures State() == Movement.MakeHit(old(State()))
    {
      if !hit {
        hit := true;
      }
    }

    method MoveLeft(vel: real)
      modifies this
      ensures State() == Movement.MoveLeft(old(State()), vel)
    {
      if wallJumpCooldown <= 0 {
        xVel := Max(-MaxSpeed, xVel - vel * 0.3);
      }
      if direction != Left {
        direction := Left;
        animationCount := 0;
      }
    }

    method MoveRight(vel: real)
      modifies this
      ensures State() == Movement.MoveRight(old(State()), vel)
    {
      if wallJumpCooldown <= 0 {
        xVel := Min(MaxSpeed, xVel + vel * 0.3);
      }
      if direction != Right {
        direction := Right;
        animationCount := 0;
      }
    }

    method ApplyFriction()
      modifies this
      ensures State() == Movement.ApplyFriction(old(State()))
    {
      if Abs(xVel) > 0.1 {
        xVel := xVel * 0.8;
      } else {
        xVel := 0.0;
      }
    }

    /** The steps of `loop` before the sprite update, in the order they run. */
    method Tick(fps: nat)
      requires fps > 0
      modifies this
      ensures State() == Movement.Tick(old(State()), fps)
    {
      Fall(fps);
      Timers(fps);
    }

    method Fall(fps: nat)
      requires fps > 0
      modifies this
      ensures State() == Movement.Fall(old(State()), fps)
    {
      if wallSlide && yVel > 0.0 {
        yVel := Min(yVel, 2.0);
      } else {
        yVel := yVel + Min(1.0, (fallCount as real / fps as real) * Gravity);
      }
      Move(xVel, yVel);
    }

    method Timers(fps: nat)
      modifies this
      ensures State() == Movement.Timers(old(State()), fps)
    {
      if hit {
        hitCount := hitCount + 1;
      }
      if hitCount as real > fps as real * 0.5 {
        hit := false;
        hitCount := 0;
      }
      if dashCooldown > 0 {
        dashCooldown := dashCooldown - 1;
      }
      if wallJumpCooldown > 0 {
        wallJumpCooldown := wallJumpCooldown - 1;
      }
      fallCount := fallCount + 1;
    }

    method Loop(fps: nat)
      requires fps > 0 && SpritesValid(sprites)
      modifies this
      ensures State() == Movement.Loop(old(State()), fps, sprites)
    {
      Tick(fps);
      UpdateSprite();
    }

    method Landed()
      modifies this
      ensures State() == Movement.Landed(old(State()))
    {
      fallCount := 0;
      yVel := 0.0;
      jumpCount := 0;
      wallSlide := false;
    }

    method HitHead()
      modifies this
      ensures State() == Movement.HitHead(old(State()))
    {
      yVel := yVel * -1.0;
    }

    method UpdateSprite()
      requires SpritesValid(sprites)
      modifies this
      ensures State() == Movement.UpdateSprite(old(State()), sprites)
    {
      var key := SheetKey(State(), sprites);
      sprite := Frame(key, (animationCount / AnimationDelay) % sprites[key]);
      animationCount := animationCount + 1;
    }
  }
}
