/** The collision pipeline of `handle_move`: horizontal probes, wall sliding,
    vertical snapping, and the dispatch of contacts to their effects, over an
    arbitrary overlap relation standing for pixel-mask collision. */
module Collision {
  import opened Common
  import opened Movement
  import opened Players
  import opened Entities

  /** `collide`'s search: the index of the first object, from `i` on, that the
      probe rectangle overlaps. */
  function FirstHit(probe: Box, objs: seq<LevelObject>, ov: Overlap, i: nat): (r: Option<nat>)
    requires i <= |objs|
    ensures r.Some? ==> i <= r.value < |objs| && ov(probe, objs[r.value].box)
    ensures r.Some? ==> forall k :: i <= k < r.value ==> !ov(probe, objs[k].box)
    ensures r.None? <==> forall k :: i <= k < |objs| ==> !ov(probe, objs[k].box)
    decreases |objs| - i
  {
    if i == |objs| then None
    else if ov(probe, objs[i].box) then Some(i)
    else FirstHit(probe, objs, ov, i + 1)
  }

  /** The object `collide(player, objects, dx)` finds. */
  function Probe(b: Body, objs: seq<LevelObject>, ov: Overlap, dx: real): Option<nat> {
    FirstHit(b.box.Shift(dx, 0.0), objs, ov, 0)
  }

  /** `collide(player, objects, dx)`: shift by dx, look for the first overlapping
      object in list order, shift back. The player ends where it started. */
  method Collide(p: Player, objs: seq<LevelObject>, ov: Overlap, dx: real) returns (hit: Option<nat>)
    modifies p
    ensures p.State() == old(p.State())
    ensures hit == Probe(old(p.State()), objs, ov, dx)
  {
    ghost var probe := p.box.Shift(dx, 0.0);
    p.Move(dx, 0.0);
    hit := None;
    var i := 0;
    while i < |objs|
      invariant 0 <= i <= |objs|
      invariant p.box == probe
      invariant p.State() == old(p.State()).(box := probe)
      invariant FirstHit(probe, objs, ov, 0) == FirstHit(probe, objs, ov, i)
    {
      if ov(p.box, objs[i].box) {
        hit := Some(i);
        break;
      }
      i := i + 1;
    }
    p.Move(-dx, 0.0);
  }

  /** The outcome of `check_wall_slide` given what the two ±5 probes found:
      sliding iff a wall is touched while falling with a jump spent. While
      sliding, a player touching a wall on the left faces left unless it
      already did, and otherwise faces right if a wall is on the right. */
  function WallSlide(b: Body, left: bool, right: bool): (r: Body)
    ensures r == b.(wallSlide := r.wallSlide, direction := r.direction)
    ensures r.wallSlide <==> (left || right) && b.yVel > 0.0 && b.jumpCount > 0
    ensures !r.wallSlide ==> r.direction == b.direction
    ensures r.wallSlide && left && b.direction == Right ==> r.direction == Left
    ensures r.wallSlide && left && !right ==> r.direction == Left
    ensures r.wallSlide && !left ==> r.direction == Right
  {
    if (left || right) && b.yVel > 0.0 && b.jumpCount > 0 then
      var dir :=
        if left && b.direction != Left then Left
        else if right && b.direction != Right then Right
        else b.direction;
      b.(wallSlide := true, direction := dir)
    else b.(wallSlide := false)
  }

  /** The wall-slide check as a whole, probing the player's current position. */
  function CheckWallSlideSpec(b: Body, objs: seq<LevelObject>, ov: Overlap): Body {
    WallSlide(b, Probe(b, objs, ov, -5.0).Some?, Probe(b, objs, ov, 5.0).Some?)
  }

  /** With walls on both sides the left-first snap does not settle: a sliding
      player facing left turns right, and facing right turns left. */
  lemma WallSlideBetweenWallsFlips(b: Body)
    requires b.yVel > 0.0 && b.jumpCount > 0
    ensures WallSlide(b, true, true).direction != b.direction
    ensures WallSlide(WallSlide(b, true, true), true, true).direction == b.direction
  {
  }

  /** `check_wall_slide(player, objects)`. */
  method CheckWallSlide(p: Player, objs: seq<LevelObject>, ov: Overlap)
    modifies p
    ensures p.State() == CheckWallSlideSpec(old(p.State()), objs, ov)
  {
    var wallLeft := Collide(p, objs, ov, -5.0);
    var wallRight := Collide(p, objs, ov, 5.0);
    if (wallLeft.Some? || wallRight.Some?) && p.yVel > 0.0 && p.jumpCount > 0 {
      p.wallSlide := true;
      if wallLeft.Some? && p.direction != Left {
        p.direction := Left;
      } else if wallRight.Some? && p.direction != Right {
        p.direction := Right;
      }
    } else {
      p.wallSlide := false;
    }
  }

  /** One overlapping object met by `handle_vertical_collision`: falling, the
      player's bottom snaps to its top and it lands; rising, its top snaps to the
      object's bottom and the vertical speed reverses; at dy = 0 it only counts. */
  function Snap(b: Body, o: Box, dy: real): (r: Body)
    ensures dy > 0.0 ==> r == Landed(b).(box := b.box.(y := o.y - b.box.h))
    ensures dy < 0.0 ==> r == HitHead(b).(box := b.box.(y := o.Bottom()))
    ensures dy == 0.0 ==> r == b
  {
    if dy > 0.0 then Landed(b.(box := b.box.(y := o.y - b.box.h)))
    else if dy < 0.0 then HitHead(b.(box := b.box.(y := o.Bottom())))
    else b
  }

  /** `handle_vertical_collision` from object `i` on: the player afterwards and
      the indices of the objects it overlapped, each tested against the player
      as earlier snaps left it. */
  function Vertical(b: Body, objs: seq<LevelObject>, ov: Overlap, dy: real, i: nat): (Body, seq<nat>)
    requires i <= |objs|
    decreases |objs| - i
  {
    if i == |objs| then (b, [])
    else if ov(b.box, objs[i].box) then
      var rest := Vertical(Snap(b, objs[i].box, dy), objs, ov, dy, i + 1);
      (rest.0, [i] + rest.1)
    else Vertical(b, objs, ov, dy, i + 1)
  }

  /** What one vertical pass does: it reports overlapped objects in increasing
      list order; it moves the player only vertically and changes nothing when
      nothing was met or dy = 0. Falling onto something lands the player on top
      of the last object met; rising into k things reverses the vertical speed
      k times. */
  lemma {:induction false} VerticalOutcome(b: Body, objs: seq<LevelObject>, ov: Overlap, dy: real, i: nat)
    requires i <= |objs|
    ensures var r := Vertical(b, objs, ov, dy, i);
      && (forall k :: 0 <= k < |r.1| ==> i <= r.1[k] < |objs|)
      && (forall a, c :: 0 <= a < c < |r.1| ==> r.1[a] < r.1[c])
      && r.0.box.x == b.box.x && r.0.box.w == b.box.w && r.0.box.h == b.box.h
      && r.0.xVel == b.xVel && r.0.direction == b.direction && r.0.hit == b.hit
      && (r.1 == [] || dy == 0.0 ==> r.0 == b)
      && (dy > 0.0 && r.1 != [] ==>
            r.0 == Landed(b).(box := b.box.(y := objs[r.1[|r.1| - 1]].box.y - b.box.h)))
      && (dy < 0.0 ==> r.0.yVel == (if |r.1| % 2 == 0 then b.yVel else -b.yVel))
      && (dy < 0.0 ==> r.0.jumpCount == b.jumpCount && r.0.fallCount == b.fallCount)
    decreases |objs| - i
  {
    if i < |objs| {
      if ov(b.box, objs[i].box) {
        var s := Snap(b, objs[i].box, dy);
        VerticalOutcome(s, objs, ov, dy, i + 1);
        var rest := Vertical(s, objs, ov, dy, i + 1);
        assert Vertical(b, objs, ov, dy, i) == (rest.0, [i] + rest.1);
        if dy > 0.0 && rest.1 != [] {
          assert Landed(s) == Landed(b).(box := s.box);
        }
      } else {
        VerticalOutcome(b, objs, ov, dy, i + 1);
      }
    }
  }

  /** The body of the `if collide_mask` branch of `handle_vertical_collision`. */
  method SnapTo(p: Player, o: Box, dy: real)
    modifies p
    ensures p.State() == Snap(old(p.State()), o, dy)
  {
    if dy > 0.0 {
      p.box := p.box.(y := o.y - p.box.h);
      p.Landed();
    } else if dy < 0.0 {
      p.box := p.box.(y := o.Bottom());
      p.HitHead();
    }
  }

  /** `handle_vertical_collision(player, objects, dy)`. */
  method HandleVerticalCollision(p: Player, objs: seq<LevelObject>, ov: Overlap, dy: real)
    returns (hits: seq<nat>)
    modifies p
    ensures (p.State(), hits) == Vertical(old(p.State()), objs, ov, dy, 0)
  {
    ghost var target := Vertical(p.State(), objs, ov, dy, 0);
    hits := [];
    var i := 0;
    while i < |objs|
      invariant 0 <= i <= |objs|
      invariant Vertical(p.State(), objs, ov, dy, i).0 == target.0
      invariant hits + Vertical(p.State(), objs, ov, dy, i).1 == target.1
    {
      if ov(p.box, objs[i].box) {
        ghost var rest := Vertical(Snap(p.State(), objs[i].box, dy), objs, ov, dy, i + 1).1;
        SnapTo(p, objs[i].box, dy);
        assert hits + ([i] + rest) == (hits + [i]) + rest;
        hits := hits + [i];
      }
      i := i + 1;
    }
    assert hits + [] == hits;
  }
}
