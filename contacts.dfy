/** What `handle_move` does with the contacts it found: the dispatch on the kind
    of each object touched, projectile hits, and the removal of collected
    items; and `handle_move` as a whole. */
module Contacts {
  import opened Common
  import opened Vitals
  import opened GameStates
  import opened Movement
  import opened Players
  import opened Entities
  import opened Levels
  import opened Collision

  const HazardDamage: int := 25
  const ProjectileDamage: int := 15

  /** Two object lists that differ at most in checkpoints turned on: the same
      ids and rectangles at the same places, and the same kinds otherwise. */
  predicate SameLayout(a: seq<LevelObject>, b: seq<LevelObject>) {
    && |a| == |b|
    && forall k :: 0 <= k < |a| ==>
         && a[k].id == b[k].id && a[k].box == b[k].box
         && (a[k].kind == b[k].kind || (a[k].kind.Checkpoint? && b[k].kind == Checkpoint(true)))
  }

  predicate IsPickup(k: Kind) { k.Fruit? || k.HealthPotion? }

  /** The kinds `handle_move` treats as harmful on contact. */
  predicate IsHazard(k: Kind) { k.Fire? || k.Foe? }

  /** Every id queued from position `from` on belongs to a fruit or a potion of the list. */
  predicate QueuedPickups(objs: seq<LevelObject>, removed: seq<nat>, from: nat) {
    forall k :: from <= k < |removed| ==> PickupId(objs, removed[k])
  }

  /** `x` is the id of a fruit or a potion of the list. */
  predicate PickupId(objs: seq<LevelObject>, x: nat) {
    exists j :: 0 <= j < |objs| && objs[j].id == x && IsPickup(objs[j].kind)
  }

  /** What the dispatch loop changes: the vitals, the player, the object list
      (a checkpoint's flag) and `objects_to_remove`, as ids. */
  datatype Outcome = Outcome(status: Status, body: Body, objects: seq<LevelObject>, removed: seq<nat>)

  /** Every entry of `to_check` is empty or names an object of the list. */
  predicate EntriesIn(entries: seq<Option<nat>>, n: nat) {
    forall k :: 0 <= k < |entries| ==> entries[k].Some? ==> entries[k].value < n
  }

  /** A fire or an enemy: the hit flag and 25 damage, on every contact. */
  function Hurt(w: Outcome): Outcome {
    w.(body := MakeHit(w.body), status := TakeDamage(w.status, HazardDamage))
  }

  /** One entry of `to_check`, dispatched on the name of the object it holds;
      an empty entry and a nameless block do nothing. */
  function DispatchEntry(w: Outcome, e: Option<nat>): (r: Outcome)
    requires e.Some? ==> e.value < |w.objects|
    ensures SameLayout(w.objects, r.objects)
  {
    if e.None? then w
    else
      var o := w.objects[e.value];
      match o.kind
      case Block => w
      case Fire => Hurt(w)
      case Foe(_) => Hurt(w)
      case Fruit =>
        var s := w.status.(fruitsCollected := w.status.fruitsCollected + 1);
        w.(status := s.(score := s.score + FruitPoints), removed := w.removed + [o.id])
      case HealthPotion =>
        var s := Heal(w.status, PotionHeal);
        w.(status := s.(score := s.score + PotionPoints), removed := w.removed + [o.id])
      case Checkpoint(activated) =>
        if activated then w
        else
          w.(objects := w.objects[e.value := o.(kind := Checkpoint(true))],
             status := w.status.(checkpointReached := true,
                                 checkpointPos := (w.body.box.x, w.body.box.y)))
      case LevelExit => w.(status := w.status.(mode := LevelComplete))
  }

  /** The dispatch loop over `to_check`, from entry `i` on. */
  function Dispatch(w: Outcome, entries: seq<Option<nat>>, i: nat): Outcome
    requires i <= |entries| && EntriesIn(entries, |w.objects|)
    decreases |entries| - i
  {
    if i == |entries| then w
    else Dispatch(DispatchEntry(w, entries[i]), entries, i + 1)
  }

  /** How many entries from `i` on name a fruit, and a potion. */
  function FruitEntries(objs: seq<LevelObject>, entries: seq<Option<nat>>, i: nat): nat
    requires i <= |entries| && EntriesIn(entries, |objs|)
    decreases |entries| - i
  {
    if i == |entries| then 0
    else
      (if entries[i].Some? && objs[entries[i].value].kind.Fruit? then 1 else 0)
      + FruitEntries(objs, entries, i + 1)
  }

  function PotionEntries(objs: seq<LevelObject>, entries: seq<Option<nat>>, i: nat): nat
    requires i <= |entries| && EntriesIn(entries, |objs|)
    decreases |entries| - i
  {
    if i == |entries| then 0
    else
      (if entries[i].Some? && objs[entries[i].value].kind.HealthPotion? then 1 else 0)
      + PotionEntries(objs, entries, i + 1)
  }

  lemma {:induction false} EntriesStable(a: seq<LevelObject>, b: seq<LevelObject>, entries: seq<Option<nat>>, i: nat)
    requires SameLayout(a, b) && i <= |entries| && EntriesIn(entries, |a|)
    ensures FruitEntries(a, entries, i) == FruitEntries(b, entries, i)
    ensures PotionEntries(a, entries, i) == PotionEntries(b, entries, i)
    decreases |entries| - i
  {
    if i < |entries| {
      EntriesStable(a, b, entries, i + 1);
    }
  }

  lemma SameLayoutTrans(a: seq<LevelObject>, b: seq<LevelObject>, c: seq<LevelObject>)
    requires SameLayout(a, b) && SameLayout(b, c)
    ensures SameLayout(a, c)
  {
  }

  /** One dispatched entry changes the player at most by the hit flag, queues
      at most the id of the fruit or potion it names, scores 100 for a fruit and
      50 for a potion, and keeps the vitals valid and the level number. */
  lemma DispatchEntryFacts(w: Outcome, e: Option<nat>)
    requires e.Some? ==> e.value < |w.objects|
    ensures var r := DispatchEntry(w, e);
      var fruit := e.Some? && w.objects[e.value].kind.Fruit?;
      var potion := e.Some? && w.objects[e.value].kind.HealthPotion?;
      && r.body == w.body.(hit := r.body.hit) && (w.body.hit ==> r.body.hit)
      && (if fruit || potion then r.removed == w.removed + [w.objects[e.value].id] else r.removed == w.removed)
      && r.status.score == w.status.score + (if fruit then FruitPoints else 0) + (if potion then PotionPoints else 0)
      && r.status.fruitsCollected == w.status.fruitsCollected + (if fruit then 1 else 0)
      && r.status.currentLevel == w.status.currentLevel && r.status.maxLevel == w.status.maxLevel
      && (Valid(w.status) ==> Valid(r.status))
  {
  }

  /** One entry, by the kind of object it names: a fire or an enemy flags the
      player hit and deals 25 damage; a fruit counts and scores 100; a potion
      heals 25, capped at max health, and scores 50; both are queued. An
      inactive checkpoint turns on and records where the player stands; the
      exit completes the level. An empty entry, a block or an active checkpoint
      changes nothing. */
  lemma DispatchEntryEffects(w: Outcome, e: Option<nat>)
    requires e.Some? ==> e.value < |w.objects|
    ensures e.None? ==> DispatchEntry(w, e) == w
    ensures e.Some? ==>
      var r := DispatchEntry(w, e);
      var o := w.objects[e.value];
      && (o.kind.Block? || o.kind == Checkpoint(true) ==> r == w)
      && (IsHazard(o.kind) ==>
            && r.status == TakeDamage(w.status, HazardDamage) && r.body == MakeHit(w.body) && r.body.hit
            && r.objects == w.objects && r.removed == w.removed)
      && (o.kind.Fruit? ==>
            && r.status == w.status.(score := w.status.score + FruitPoints,
                                     fruitsCollected := w.status.fruitsCollected + 1)
            && r.body == w.body && r.objects == w.objects && r.removed == w.removed + [o.id])
      && (o.kind.HealthPotion? ==>
            && r.status.health == Heal(w.status, PotionHeal).health
            && r.status == w.status.(health := r.status.health, score := w.status.score + PotionPoints)
            && r.body == w.body && r.objects == w.objects && r.removed == w.removed + [o.id])
      && (o.kind == Checkpoint(false) ==>
            && r.status == w.status.(checkpointReached := true, checkpointPos := (w.body.box.x, w.body.box.y))
            && r.objects == w.objects[e.value := o.(kind := Checkpoint(true))]
            && r.body == w.body && r.removed == w.removed)
      && (o.kind.LevelExit? ==> r == w.(status := w.status.(mode := LevelComplete)))
  {
  }

  /** Every fruit or potion that an entry of `to_check` names is queued for
      removal, however often it is named; nothing queued before is dropped. */
  lemma {:induction false} DispatchQueuesTouched(w: Outcome, entries: seq<Option<nat>>, i: nat)
    requires i <= |entries| && EntriesIn(entries, |w.objects|)
    ensures forall x :: x in w.removed ==> x in Dispatch(w, entries, i).removed
    ensures forall k :: i <= k < |entries| && entries[k].Some? && IsPickup(w.objects[entries[k].value].kind) ==>
              w.objects[entries[k].value].id in Dispatch(w, entries, i).removed
    decreases |entries| - i
  {
    if i < |entries| {
      var n := DispatchEntry(w, entries[i]);
      DispatchEntryFacts(w, entries[i]);
      DispatchQueuesTouched(n, entries, i + 1);
      var r := Dispatch(n, entries, i + 1);
      assert r == Dispatch(w, entries, i);
      forall k | i <= k < |entries| && entries[k].Some? && IsPickup(w.objects[entries[k].value].kind)
        ensures w.objects[entries[k].value].id in r.removed
      {
        var j := entries[k].value;
        if k == i {
          assert w.objects[j].id in n.removed;
        } else {
          assert n.objects[j].id == w.objects[j].id && IsPickup(n.objects[j].kind);
        }
      }
    }
  }

  /** Once the level is complete or the game is over, the rest of the loop
      keeps it so; with no fire or enemy left to touch it stays complete. */
  lemma {:induction false} DispatchKeepsEnd(w: Outcome, entries: seq<Option<nat>>, i: nat)
    requires i <= |entries| && EntriesIn(entries, |w.objects|)
    requires w.status.mode == LevelComplete || w.status.mode == GameOver
    ensures var m := Dispatch(w, entries, i).status.mode; m == LevelComplete || m == GameOver
    ensures w.status.mode == LevelComplete
            && (forall j :: i <= j < |entries| && entries[j].Some? ==> !IsHazard(w.objects[entries[j].value].kind))
            ==> Dispatch(w, entries, i).status.mode == LevelComplete
    decreases |entries| - i
  {
    if i < |entries| {
      var n := DispatchEntry(w, entries[i]);
      DispatchEntryEffects(w, entries[i]);
      DispatchKeepsEnd(n, entries, i + 1);
      assert Dispatch(n, entries, i + 1) == Dispatch(w, entries, i);
      if w.status.mode == LevelComplete
         && (forall j :: i <= j < |entries| && entries[j].Some? ==> !IsHazard(w.objects[entries[j].value].kind)) {
        assert n.status.mode == LevelComplete;
        forall j | i + 1 <= j < |entries| && entries[j].Some?
          ensures !IsHazard(n.objects[entries[j].value].kind)
        {
          assert !IsHazard(w.objects[entries[j].value].kind);
        }
      }
    }
  }

  /** Touching the exit ends the pass in LEVEL_COMPLETE, unless a later fire or
      enemy takes the last life, which ends it in GAME_OVER. */
  lemma {:induction false} DispatchExitCompletes(w: Outcome, entries: seq<Option<nat>>, i: nat, k: nat)
    requires i <= k < |entries| && EntriesIn(entries, |w.objects|)
    requires entries[k].Some? && w.objects[entries[k].value].kind.LevelExit?
    ensures var m := Dispatch(w, entries, i).status.mode; m == LevelComplete || m == GameOver
    ensures (forall j :: k < j < |entries| && entries[j].Some? ==> !IsHazard(w.objects[entries[j].value].kind))
            ==> Dispatch(w, entries, i).status.mode == LevelComplete
    decreases k - i
  {
    var n := DispatchEntry(w, entries[i]);
    DispatchEntryEffects(w, entries[i]);
    assert Dispatch(n, entries, i + 1) == Dispatch(w, entries, i);
    if i < k {
      assert n.objects[entries[k].value].kind.LevelExit?;
      DispatchExitCompletes(n, entries, i + 1, k);
      if forall j :: k < j < |entries| && entries[j].Some? ==> !IsHazard(w.objects[entries[j].value].kind) {
        forall j | k < j < |entries| && entries[j].Some?
          ensures !IsHazard(n.objects[entries[j].value].kind)
        {
          assert !IsHazard(w.objects[entries[j].value].kind);
        }
      }
    } else {
      DispatchKeepsEnd(n, entries, i + 1);
      if forall j :: k < j < |entries| && entries[j].Some? ==> !IsHazard(w.objects[entries[j].value].kind) {
        forall j | i + 1 <= j < |entries| && entries[j].Some?
          ensures !IsHazard(n.objects[entries[j].value].kind)
        {
          assert !IsHazard(w.objects[entries[j].value].kind);
        }
      }
    }
  }

  /** What the dispatch loop does, whatever was touched: objects keep their
      places and only checkpoints turn on; only fruits and potions are queued
      for removal; the player changes at most by the hit flag; each fruit entry
      scores 100 and each potion entry 50; vitals stay valid and the level
      stays the same. */
  lemma {:induction false} DispatchOutcome(w: Outcome, entries: seq<Option<nat>>, i: nat)
    requires i <= |entries| && EntriesIn(entries, |w.objects|)
    ensures var r := Dispatch(w, entries, i);
      && SameLayout(w.objects, r.objects)
      && r.body == w.body.(hit := r.body.hit) && (w.body.hit ==> r.body.hit)
      && |w.removed| <= |r.removed| && r.removed[..|w.removed|] == w.removed
      && QueuedPickups(w.objects, r.removed, |w.removed|)
      && r.status.score == w.status.score
           + FruitPoints * FruitEntries(w.objects, entries, i) + PotionPoints * PotionEntries(w.objects, entries, i)
      && r.status.fruitsCollected == w.status.fruitsCollected + FruitEntries(w.objects, entries, i)
      && r.status.currentLevel == w.status.currentLevel && r.status.maxLevel == w.status.maxLevel
      && (Valid(w.status) ==> Valid(r.status))
    decreases |entries| - i
  {
    if i < |entries| {
      var e := entries[i];
      var n := DispatchEntry(w, e);
      DispatchEntryFacts(w, e);
      DispatchOutcome(n, entries, i + 1);
      var r := Dispatch(n, entries, i + 1);
      assert r == Dispatch(w, entries, i);
      SameLayoutTrans(w.objects, n.objects, r.objects);
      EntriesStable(w.objects, n.objects, entries, i + 1);
      var f := if e.Some? && w.objects[e.value].kind.Fruit? then 1 else 0;
      var q := if e.Some? && w.objects[e.value].kind.HealthPotion? then 1 else 0;
      assert FruitEntries(w.objects, entries, i) == f + FruitEntries(w.objects, entries, i + 1);
      assert PotionEntries(w.objects, entries, i) == q + PotionEntries(w.objects, entries, i + 1);
      assert r.removed[..|w.removed|] == w.removed by {
        assert r.removed[..|w.removed|] == r.removed[..|n.removed|][..|w.removed|];
      }
      forall k | |w.removed| <= k < |r.removed|
        ensures PickupId(w.objects, r.removed[k])
      {
        if k < |n.removed| {
          assert r.removed[k] == r.removed[..|n.removed|][k] == n.removed[k];
          assert w.objects[e.value].id == r.removed[k];
        } else {
          assert PickupId(n.objects, r.removed[k]);
          PickupIdBack(w.objects, n.objects, r.removed[k]);
        }
      }
    }
  }

  /** Turning a checkpoint on makes no new fruit or potion. */
  lemma PickupIdBack(a: seq<LevelObject>, b: seq<LevelObject>, x: nat)
    requires SameLayout(a, b) && PickupId(b, x)
    ensures PickupId(a, x)
  {
    var j :| 0 <= j < |b| && b[j].id == x && IsPickup(b[j].kind);
    assert a[j].id == x && IsPickup(a[j].kind);
  }

  lemma DispatchSingle(w: Outcome, a: Option<nat>)
    requires a.Some? ==> a.value < |w.objects|
    ensures EntriesIn([a], |w.objects|) && Dispatch(w, [a], 0) == DispatchEntry(w, a)
  {
    var n := DispatchEntry(w, a);
    assert Dispatch(w, [a], 0) == Dispatch(n, [a], 1);
  }

  lemma DispatchPair(w: Outcome, a: Option<nat>, b: Option<nat>)
    requires a.Some? ==> a.value < |w.objects|
    requires b.Some? ==> b.value < |w.objects|
    ensures EntriesIn([a, b], |w.objects|)
    ensures Dispatch(w, [a, b], 0) == DispatchEntry(DispatchEntry(w, a), b)
  {
    var n := DispatchEntry(w, a);
    assert Dispatch(w, [a, b], 0) == Dispatch(n, [a, b], 1);
    assert Dispatch(n, [a, b], 1) == Dispatch(DispatchEntry(n, b), [a, b], 2);
  }

  /** Hazards hurt on every contact: the same fire or enemy twice in `to_check`
      deals 25 damage twice. */
  lemma HazardTwice(w: Outcome, k: nat)
    requires k < |w.objects| && (w.objects[k].kind.Fire? || w.objects[k].kind.Foe?)
    ensures var entries := [Some(k), Some(k)];
      EntriesIn(entries, |w.objects|) &&
      Dispatch(w, entries, 0).status == TakeDamage(TakeDamage(w.status, HazardDamage), HazardDamage)
  {
    DispatchPair(w, Some(k), Some(k));
  }

  /** The same fruit twice in `to_check` scores twice, yet is removed once. */
  lemma FruitTwice(w: Outcome, k: nat)
    requires k < |w.objects| && w.objects[k].kind.Fruit? && DistinctIds(w.objects) && w.removed == []
    ensures var r := Dispatch(w, [Some(k), Some(k)], 0);
      && r.status.score == w.status.score + 2 * FruitPoints
      && r.status.fruitsCollected == w.status.fruitsCollected + 2
      && |RemoveAll(r.objects, r.removed)| == |w.objects| - 1
  {
    var id := w.objects[k].id;
    var r := Dispatch(w, [Some(k), Some(k)], 0);
    DispatchPair(w, Some(k), Some(k));
    assert r.objects == w.objects && r.removed == [id, id];
    RemoveFound(w.objects, id);
    assert FindId(w.objects, id) == Some(k);
    var once := RemoveId(w.objects, id);
    RemoveIdIsFilter(w.objects, id);
    assert FindId(once, id).None? by {
      forall j | 0 <= j < |once|
        ensures once[j].id != id
      {
        assert once[j] in Filter(w.objects, KeepOtherThan(id));
      }
    }
    RemoveFound(once, id);
    assert |once| == |w.objects| - 1;
    assert [id, id][1..] == [id] && [id][1..] == [];
    assert RemoveAll(once, [id]) == RemoveAll(RemoveId(once, id), []) == once;
    assert RemoveAll(r.objects, r.removed) == RemoveAll(once, [id]);
  }

  /** A checkpoint turns on once: touching it again changes nothing more, and
      an unvisited one records the checkpoint as reached. */
  lemma CheckpointOnce(w: Outcome, k: nat)
    requires k < |w.objects| && w.objects[k].kind.Checkpoint?
    ensures Dispatch(w, [Some(k), Some(k)], 0) == Dispatch(w, [Some(k)], 0)
    ensures !w.objects[k].kind.activated ==> Dispatch(w, [Some(k)], 0).status.checkpointReached
    ensures |Dispatch(w, [Some(k)], 0).objects| == |w.objects|
    ensures Dispatch(w, [Some(k)], 0).objects[k].kind == Checkpoint(true)
  {
    DispatchPair(w, Some(k), Some(k));
    DispatchSingle(w, Some(k));
  }

  /** The level exit is dispatched even after the last life is lost in the same
      pass, and its LEVEL_COMPLETE replaces GAME_OVER. */
  lemma ExitAfterFatalHit(w: Outcome, f: nat, x: nat)
    requires f < |w.objects| && x < |w.objects|
    requires w.objects[f].kind.Fire? && w.objects[x].kind.LevelExit?
    requires w.status.lives == 1 && w.status.health <= HazardDamage
    ensures TakeDamage(w.status, HazardDamage).mode == GameOver
    ensures Dispatch(w, [Some(f), Some(x)], 0).status.mode == LevelComplete
    ensures Dispatch(w, [Some(f), Some(x)], 0).status.lives == 0
  {
    DispatchPair(w, Some(f), Some(x));
  }

  // ---------------------------------------------------------------------
  // Projectile hits.

  function Misses(b: Box, ov: Overlap): Projectile -> bool {
    (q: Projectile) => !ov(b, q.box)
  }

  /** The projectile loop of `handle_move`, over the copy: each projectile
      overlapping the player hits it, deals 15 damage and is removed. */
  function ProjectileHits(st: Status, b: Body, ps: seq<Projectile>, ov: Overlap): (Status, Body, seq<Projectile>)
    decreases |ps|
  {
    if ps == [] then (st, b, [])
    else if ov(b.box, ps[0].box) then ProjectileHits(TakeDamage(st, ProjectileDamage), MakeHit(b), ps[1..], ov)
    else
      var r := ProjectileHits(st, b, ps[1..], ov);
      (r.0, r.1, [ps[0]] + r.2)
  }

  /** In closed form: the survivors are the projectiles missing the player, in
      order; the player takes 15 damage per hit and is flagged hit if any landed. */
  lemma ProjectileHitsClosedForm(st: Status, b: Body, ps: seq<Projectile>, ov: Overlap)
    ensures var r := ProjectileHits(st, b, ps, ov);
      var n := |ps| - |r.2|;
      && r.2 == Filter(ps, Misses(b.box, ov))
      && r.0 == DamageTimes(st, ProjectileDamage, n)
      && r.1 == (if n > 0 then MakeHit(b) else b)
  {
    ProjectileSurvivors(st, b, ps, ov);
    ProjectileDamageTaken(st, b, ps, ov);
    ProjectileHitFlag(st, b, ps, ov);
  }

  lemma {:induction false} ProjectileSurvivors(st: Status, b: Body, ps: seq<Projectile>, ov: Overlap)
    ensures ProjectileHits(st, b, ps, ov).2 == Filter(ps, Misses(b.box, ov))
    decreases |ps|
  {
    if ps != [] {
      if ov(b.box, ps[0].box) {
        ProjectileSurvivors(TakeDamage(st, ProjectileDamage), MakeHit(b), ps[1..], ov);
        assert MakeHit(b).box == b.box;
      } else {
        ProjectileSurvivors(st, b, ps[1..], ov);
      }
    }
  }

  lemma {:induction false} ProjectileDamageTaken(st: Status, b: Body, ps: seq<Projectile>, ov: Overlap)
    ensures var r := ProjectileHits(st, b, ps, ov);
      |r.2| <= |ps| && r.0 == DamageTimes(st, ProjectileDamage, |ps| - |r.2|)
    decreases |ps|
  {
    if ps != [] {
      if ov(b.box, ps[0].box) {
        var st' := TakeDamage(st, ProjectileDamage);
        ProjectileDamageTaken(st', MakeHit(b), ps[1..], ov);
        var r := ProjectileHits(st', MakeHit(b), ps[1..], ov);
        var m := |ps| - 1 - |r.2|;
        assert DamageTimes(st, ProjectileDamage, m + 1) == DamageTimes(st', ProjectileDamage, m);
      } else {
        ProjectileDamageTaken(st, b, ps[1..], ov);
      }
    }
  }

  lemma {:induction false} ProjectileHitFlag(st: Status, b: Body, ps: seq<Projectile>, ov: Overlap)
    ensures var r := ProjectileHits(st, b, ps, ov);
      |r.2| <= |ps| && r.1 == (if |r.2| < |ps| then MakeHit(b) else b)
    decreases |ps|
  {
    if ps != [] {
      if ov(b.box, ps[0].box) {
        ProjectileHitFlag(TakeDamage(st, ProjectileDamage), MakeHit(b), ps[1..], ov);
        assert MakeHit(MakeHit(b)) == MakeHit(b);
      } else {
        ProjectileHitFlag(st, b, ps[1..], ov);
      }
    }
  }

  /** No projectile survives on the player, and valid vitals stay valid. */
  lemma ProjectileHitsSafe(st: Status, b: Body, ps: seq<Projectile>, ov: Overlap)
    requires Valid(st)
    ensures var r := ProjectileHits(st, b, ps, ov);
      && (forall q :: q in r.2 ==> q in ps && !ov(b.box, q.box))
      && Valid(r.0) && r.0.currentLevel == st.currentLevel && r.0.maxLevel == st.maxLevel
      && r.1 == b.(hit := r.1.hit)
  {
    ProjectileHitsClosedForm(st, b, ps, ov);
    var r := ProjectileHits(st, b, ps, ov);
    DamageTimesBounds(st, ProjectileDamage, |ps| - |r.2|);
    DamageTimesKeepsLevel(st, ProjectileDamage, |ps| - |r.2|);
  }

  lemma {:induction false} DamageTimesKeepsLevel(s: Status, damage: int, n: nat)
    ensures DamageTimes(s, damage, n).currentLevel == s.currentLevel
    ensures DamageTimes(s, damage, n).maxLevel == s.maxLevel
    decreases n
  {
    if n > 0 {
      DamageTimesKeepsLevel(TakeDamage(s, damage), damage, n - 1);
    }
  }

  // ---------------------------------------------------------------------
  // `handle_move` as a whole.

  /** The arrow keys held during the tick. */
  datatype Held = Held(left: bool, right: bool)

  /** Everything `handle_move` reads or changes. */
  datatype World = World(status: Status, body: Body, objects: seq<LevelObject>, projectiles: seq<Projectile>)

  function ToSome(v: nat): Option<nat> { Some(v) }

  /** The movement half of `handle_move`: friction, the ±10 probes and the
      arrow keys they allow, the wall-slide check and the vertical pass; with
      `to_check` = [collide_left, collide_right, *vertical_collide]. */
  function Moved(b: Body, objs: seq<LevelObject>, held: Held, ov: Overlap): (r: (Body, seq<Option<nat>>))
    ensures EntriesIn(r.1, |objs|)
  {
    var b1 := if !(held.left || held.right) then ApplyFriction(b) else b;
    var left := Probe(b1, objs, ov, -PlayerVel * 2.0);
    var right := Probe(b1, objs, ov, PlayerVel * 2.0);
    var b2 := if held.left && left.None? then MoveLeft(b1, PlayerVel) else b1;
    var b3 := if held.right && right.None? then MoveRight(b2, PlayerVel) else b2;
    var b4 := CheckWallSlideSpec(b3, objs, ov);
    var v := Vertical(b4, objs, ov, b4.yVel, 0);
    VerticalOutcome(b4, objs, ov, b4.yVel, 0);
    (v.0, [left, right] + MapSeq(v.1, ToSome))
  }

  /** What the movement half promises about `to_check`: it opens with what the
      ±10 probes find from where the player stands (friction does not move it)
      and goes on with the objects the vertical pass met, in increasing list
      order. */
  lemma MovedEntries(b: Body, objs: seq<LevelObject>, held: Held, ov: Overlap)
    ensures var r := Moved(b, objs, held, ov);
      && |r.1| >= 2
      && r.1[0] == Probe(b, objs, ov, -PlayerVel * 2.0)
      && r.1[1] == Probe(b, objs, ov, PlayerVel * 2.0)
      && (forall k :: 2 <= k < |r.1| ==> r.1[k].Some?)
      && (forall a, c :: 2 <= a < c < |r.1| ==> r.1[a].value < r.1[c].value)
  {
    var b1 := if !(held.left || held.right) then ApplyFriction(b) else b;
    assert b1.box == b.box;
    var b2 := if held.left && Probe(b1, objs, ov, -PlayerVel * 2.0).None? then MoveLeft(b1, PlayerVel) else b1;
    var b3 := if held.right && Probe(b1, objs, ov, PlayerVel * 2.0).None? then MoveRight(b2, PlayerVel) else b2;
    var b4 := CheckWallSlideSpec(b3, objs, ov);
    VerticalOutcome(b4, objs, ov, b4.yVel, 0);
    var v := Vertical(b4, objs, ov, b4.yVel, 0);
    EntriesShape(Probe(b, objs, ov, -PlayerVel * 2.0), Probe(b, objs, ov, PlayerVel * 2.0), v.1);
  }

  /** `[collide_left, collide_right, *vertical_collide]` for increasing hits. */
  lemma EntriesShape(left: Option<nat>, right: Option<nat>, hits: seq<nat>)
    requires forall a, c :: 0 <= a < c < |hits| ==> hits[a] < hits[c]
    ensures var e := [left, right] + MapSeq(hits, ToSome);
      && |e| >= 2 && e[0] == left && e[1] == right
      && (forall k :: 2 <= k < |e| ==> e[k].Some?)
      && (forall a, c :: 2 <= a < c < |e| ==> e[a].value < e[c].value)
  {
    var e := [left, right] + MapSeq(hits, ToSome);
    forall k | 2 <= k < |e|
      ensures e[k] == Some(hits[k - 2])
    {
      assert e[k] == MapSeq(hits, ToSome)[k - 2];
    }
  }

  /** What the movement half promises about the player's horizontal motion:
      it is not moved sideways. With no arrow held the velocity only decays by
      friction; a held arrow accelerates the player exactly when its probe
      finds nothing, left before right. */
  lemma MovedSteering(b: Body, objs: seq<LevelObject>, held: Held, ov: Overlap)
    ensures var r := Moved(b, objs, held, ov);
      var left := Probe(b, objs, ov, -PlayerVel * 2.0);
      var right := Probe(b, objs, ov, PlayerVel * 2.0);
      var afterLeft := if held.left && left.None? then MoveLeft(b, PlayerVel) else b;
      && r.0.box.x == b.box.x
      && (!held.left && !held.right ==> r.0.xVel == ApplyFriction(b).xVel)
      && (held.left && !held.right ==> r.0.xVel == afterLeft.xVel)
      && (!held.left && held.right ==>
            r.0.xVel == (if right.None? then MoveRight(b, PlayerVel) else b).xVel)
      && (held.left && held.right ==>
            r.0.xVel == (if right.None? then MoveRight(afterLeft, PlayerVel) else afterLeft).xVel)
  {
    var b1 := if !(held.left || held.right) then ApplyFriction(b) else b;
    assert b1.box == b.box;
    var left := Probe(b1, objs, ov, -PlayerVel * 2.0);
    var right := Probe(b1, objs, ov, PlayerVel * 2.0);
    var b2 := if held.left && left.None? then MoveLeft(b1, PlayerVel) else b1;
    var b3 := if held.right && right.None? then MoveRight(b2, PlayerVel) else b2;
    var b4 := CheckWallSlideSpec(b3, objs, ov);
    assert b4.xVel == b3.xVel && b4.box == b3.box && b3.box == b.box;
    VerticalOutcome(b4, objs, ov, b4.yVel, 0);
    var v := Vertical(b4, objs, ov, b4.yVel, 0);
    assert Moved(b, objs, held, ov).0 == v.0;
  }

  /** The dispatch of `to_check` after the movement half. */
  function Dispatched(w: World, held: Held, ov: Overlap): Outcome {
    var m := Moved(w.body, w.objects, held, ov);
    Dispatch(Outcome(w.status, m.0, w.objects, []), m.1, 0)
  }

  /** `handle_move(player, objects, projectiles, game_state)`: nothing outside
      PLAYING; otherwise movement, dispatch, projectile hits and removal. */
  function HandleMoveSpec(w: World, held: Held, ov: Overlap): (r: World)
    ensures w.status.mode != Playing ==> r == w
  {
    if w.status.mode != Playing then w
    else
      var d := Dispatched(w, held, ov);
      var (st, b, ps) := ProjectileHits(d.status, d.body, w.projectiles, ov);
      World(st, b, RemoveAll(d.objects, d.removed), ps)
  }

  /** What one `handle_move` keeps: valid vitals and the level number; distinct
      ids; besides checkpoints turning on, the objects left are those of the
      list whose ids were not queued, in order, and only fruits and potions are
      queued; so every other object survives. No surviving projectile overlaps
      the player. */
  lemma HandleMoveOutcome(w: World, held: Held, ov: Overlap)
    requires Valid(w.status) && DistinctIds(w.objects) && w.status.mode == Playing
    ensures var r := HandleMoveSpec(w, held, ov);
      var d := Dispatched(w, held, ov);
      && Valid(r.status) && r.status.currentLevel == w.status.currentLevel
      && r.status.maxLevel == w.status.maxLevel
      && SameLayout(w.objects, d.objects)
      && r.objects == Filter(d.objects, KeepNone(d.removed))
      && DistinctIds(r.objects)
      && (forall x :: x in d.removed ==> PickupId(w.objects, x))
      && (forall k :: 0 <= k < |w.objects| && !IsPickup(w.objects[k].kind) ==> d.objects[k] in r.objects)
      && (forall q :: q in r.projectiles ==> q in w.projectiles && !ov(r.body.box, q.box))
  {
    var m := Moved(w.body, w.objects, held, ov);
    var start := Outcome(w.status, m.0, w.objects, []);
    DispatchOutcome(start, m.1, 0);
    var d := Dispatched(w, held, ov);
    ProjectileHitsSafe(d.status, d.body, w.projectiles, ov);
    ProjectileHitsClosedForm(d.status, d.body, w.projectiles, ov);
    var r := HandleMoveSpec(w, held, ov);
    assert r.body.box == d.body.box;
    SameLayoutDistinct(w.objects, d.objects);
    RemoveAllIsFilter(d.objects, d.removed);
    forall x | x in d.removed
      ensures PickupId(w.objects, x)
    {
      var k :| 0 <= k < |d.removed| && d.removed[k] == x;
    }
    forall k | 0 <= k < |w.objects| && !IsPickup(w.objects[k].kind)
      ensures d.objects[k] in r.objects
    {
      NonPickupKept(w.objects, d.objects, d.removed, k);
    }
  }

  /** The converse: a fruit or a potion that `to_check` names is queued, and no
      object with its id is left on the level afterwards. */
  lemma HandleMoveRemovesTouched(w: World, held: Held, ov: Overlap, k: nat)
    requires DistinctIds(w.objects) && w.status.mode == Playing
    requires k < |Moved(w.body, w.objects, held, ov).1|
    requires var e := Moved(w.body, w.objects, held, ov).1[k];
      e.Some? && e.value < |w.objects| && IsPickup(w.objects[e.value].kind)
    ensures var id := w.objects[Moved(w.body, w.objects, held, ov).1[k].value].id;
      && id in Dispatched(w, held, ov).removed
      && forall o :: o in HandleMoveSpec(w, held, ov).objects ==> o.id != id
  {
    var m := Moved(w.body, w.objects, held, ov);
    var start := Outcome(w.status, m.0, w.objects, []);
    DispatchQueuesTouched(start, m.1, 0);
    DispatchOutcome(start, m.1, 0);
    var d := Dispatched(w, held, ov);
    var id := w.objects[m.1[k].value].id;
    assert id in d.removed;
    SameLayoutDistinct(w.objects, d.objects);
    RemoveAllIsFilter(d.objects, d.removed);
    var r := HandleMoveSpec(w, held, ov);
    assert r.objects == RemoveAll(d.objects, d.removed);
    forall o | o in r.objects
      ensures o.id != id
    {
      assert KeepNone(d.removed)(o);
    }
  }

  /** An object that is neither a fruit nor a potion is never queued, because
      ids are distinct; so it survives the removal. */
  lemma NonPickupKept(a: seq<LevelObject>, b: seq<LevelObject>, removed: seq<nat>, k: nat)
    requires SameLayout(a, b) && DistinctIds(a) && k < |a| && !IsPickup(a[k].kind)
    requires forall x :: x in removed ==> PickupId(a, x)
    ensures b[k] in Filter(b, KeepNone(removed))
  {
    assert !PickupId(a, b[k].id);
    assert b[k] in b && KeepNone(removed)(b[k]);
  }

  // ---------------------------------------------------------------------
  // The imperative `handle_move`.

  /** One pass of the dispatch loop's body. */
  method DispatchOne(p: Player, lvl: Level, gs: GameState, removed: seq<nat>, e: Option<nat>)
    returns (removed': seq<nat>)
    requires e.Some? ==> e.value < |lvl.objects|
    modifies p, lvl, gs
    ensures Outcome(gs.Snapshot(), p.State(), lvl.objects, removed')
         == DispatchEntry(Outcome(old(gs.Snapshot()), old(p.State()), old(lvl.objects), removed), e)
    ensures lvl.projectiles == old(lvl.projectiles)
  {
    removed' := removed;
    if e.Some? {
      var o := lvl.objects[e.value];
      match o.kind
      case Block =>
      case Fire =>
        p.MakeHit();
        gs.TakeDamage(HazardDamage);
      case Foe(_) =>
        p.MakeHit();
        gs.TakeDamage(HazardDamage);
      case Fruit =>
        gs.fruitsCollected := gs.fruitsCollected + 1;
        gs.score := gs.score + FruitPoints;
        removed' := removed + [o.id];
      case HealthPotion =>
        gs.Heal(PotionHeal);
        gs.score := gs.score + PotionPoints;
        removed' := removed + [o.id];
      case Checkpoint(activated) =>
        if !activated {
          lvl.objects := lvl.objects[e.value := o.(kind := Checkpoint(true))];
          gs.checkpointReached := true;
          gs.checkpointPos := (p.box.x, p.box.y);
        }
      case LevelExit =>
        gs.state := LevelComplete;
    }
  }

  /** The dispatch loop: `for obj in to_check`, returning `objects_to_remove`. */
  method DispatchAll(p: Player, lvl: Level, gs: GameState, entries: seq<Option<nat>>)
    returns (removed: seq<nat>)
    requires EntriesIn(entries, |lvl.objects|)
    modifies p, lvl, gs
    ensures Outcome(gs.Snapshot(), p.State(), lvl.objects, removed)
         == Dispatch(Outcome(old(gs.Snapshot()), old(p.State()), old(lvl.objects), []), entries, 0)
    ensures lvl.projectiles == old(lvl.projectiles)
  {
    ghost var target := Dispatch(Outcome(gs.Snapshot(), p.State(), lvl.objects, []), entries, 0);
    removed := [];
    var i := 0;
    while i < |entries|
      invariant 0 <= i <= |entries|
      invariant EntriesIn(entries, |lvl.objects|)
      invariant Dispatch(Outcome(gs.Snapshot(), p.State(), lvl.objects, removed), entries, i) == target
      invariant lvl.projectiles == old(lvl.projectiles)
    {
      removed := DispatchOne(p, lvl, gs, removed, entries[i]);
      i := i + 1;
    }
  }

  /** One projectile against the player: on overlap the player is flagged hit
      and takes the projectile damage. */
  method Struck(p: Player, gs: GameState, pr: Projectile, ov: Overlap) returns (struck: bool)
    modifies p, gs
    ensures struck == ov(old(p.State()).box, pr.box)
    ensures gs.Snapshot() == (if struck then TakeDamage(old(gs.Snapshot()), ProjectileDamage) else old(gs.Snapshot()))
    ensures p.State() == (if struck then MakeHit(old(p.State())) else old(p.State()))
  {
    struck := ov(p.box, pr.box);
    if struck {
      p.MakeHit();
      gs.TakeDamage(ProjectileDamage);
    }
  }

  /** One step of the projectile loop over `ps[k..]`: a projectile that hits
      leaves the rest to start from the struck state; one that misses joins the
      survivors already kept. */
  lemma ProjectileHitsStep(st: Status, b: Body, ps: seq<Projectile>, k: nat, kept: seq<Projectile>, ov: Overlap)
    requires k < |ps|
    ensures var here := ProjectileHits(st, b, ps[k..], ov);
      if ov(b.box, ps[k].box) then
        var rest := ProjectileHits(TakeDamage(st, ProjectileDamage), MakeHit(b), ps[k + 1..], ov);
        (here.0, here.1, kept + here.2) == (rest.0, rest.1, kept + rest.2)
      else
        var rest := ProjectileHits(st, b, ps[k + 1..], ov);
        (here.0, here.1, kept + here.2) == (rest.0, rest.1, (kept + [ps[k]]) + rest.2)
  {
    assert ps[k..][0] == ps[k] && ps[k..][1..] == ps[k + 1..];
    if !ov(b.box, ps[k].box) {
      var rest := ProjectileHits(st, b, ps[k + 1..], ov);
      assert kept + ([ps[k]] + rest.2) == (kept + [ps[k]]) + rest.2;
    }
  }

  /** Two sequences that agree from `j` and from `k` on agree one step further,
      and the prefix of the first grows by the shared element. */
  lemma SuffixStep<T>(s: seq<T>, j: nat, t: seq<T>, k: nat)
    requires j < |s| && k < |t| && s[j..] == t[k..]
    ensures s[j] == t[k] && s[j + 1..] == t[k + 1..] && s[..j + 1] == s[..j] + [t[k]]
  {
    assert s[j..][0] == s[j] && t[k..][0] == t[k];
    assert s[j..][1..] == s[j + 1..] && t[k..][1..] == t[k + 1..];
  }

  /** The projectile loop of `handle_move`, over a copy of the list. */
  method HitByProjectiles(p: Player, lvl: Level, gs: GameState, ov: Overlap)
    modifies p, lvl, gs
    ensures (gs.Snapshot(), p.State(), lvl.projectiles)
         == ProjectileHits(old(gs.Snapshot()), old(p.State()), old(lvl.projectiles), ov)
    ensures lvl.objects == old(lvl.objects)
  {
    var snapshot := lvl.projectiles;  // `projectiles[:]`
    var live := snapshot;
    ghost var target := ProjectileHits(gs.Snapshot(), p.State(), snapshot, ov);
    var k, j := 0, 0;
    assert snapshot[0..] == snapshot && live[..0] + target.2 == target.2;
    while k < |snapshot|
      modifies p, gs
      invariant 0 <= k <= |snapshot| && 0 <= j <= |live|
      invariant live[j..] == snapshot[k..]
      invariant var rest := ProjectileHits(gs.Snapshot(), p.State(), snapshot[k..], ov);
        (rest.0, rest.1, live[..j] + rest.2) == target
      decreases |snapshot| - k
    {
      SuffixStep(live, j, snapshot, k);
      ProjectileHitsStep(gs.Snapshot(), p.State(), snapshot, k, live[..j], ov);
      var struck := Struck(p, gs, snapshot[k], ov);
      if struck {
        CutAt(live, j);
        live := live[..j] + live[j + 1..];
      } else {
        j := j + 1;
      }
      k := k + 1;
    }
    assert snapshot[k..] == [] && live[..j] + [] == live;
    lvl.projectiles := live;
  }

  /** The movement half of `handle_move`, up to building `to_check`. */
  method MoveAndProbe(p: Player, objs: seq<LevelObject>, held: Held, ov: Overlap)
    returns (toCheck: seq<Option<nat>>)
    modifies p
    ensures (p.State(), toCheck) == Moved(old(p.State()), objs, held, ov)
  {
    if !(held.left || held.right) {
      p.ApplyFriction();
    }
    var collideLeft := Collide(p, objs, ov, -PlayerVel * 2.0);
    var collideRight := Collide(p, objs, ov, PlayerVel * 2.0);
    if held.left && collideLeft.None? {
      p.MoveLeft(PlayerVel);
    }
    if held.right && collideRight.None? {
      p.MoveRight(PlayerVel);
    }
    CheckWallSlide(p, objs, ov);
    var vertical := HandleVerticalCollision(p, objs, ov, p.yVel);
    toCheck := [collideLeft, collideRight] + MapSeq(vertical, ToSome);
  }

  lemma SameLayoutDistinct(a: seq<LevelObject>, b: seq<LevelObject>)
    requires SameLayout(a, b) && DistinctIds(a)
    ensures DistinctIds(b)
  {
    forall i, j | 0 <= i < j < |b|
      ensures b[i].id != b[j].id
    {
      assert a[i].id == b[i].id && a[j].id == b[j].id;
    }
  }

  /** `handle_move(player, objects, projectiles, game_state)`, with the held
      arrow keys as a parameter. */
  method HandleMove(p: Player, lvl: Level, gs: GameState, held: Held, ov: Overlap)
    requires lvl.Valid()
    modifies p, lvl, gs
    ensures lvl.Valid()
    ensures World(gs.Snapshot(), p.State(), lvl.objects, lvl.projectiles)
         == HandleMoveSpec(World(old(gs.Snapshot()), old(p.State()), old(lvl.objects), old(lvl.projectiles)), held, ov)
  {
    if gs.state != Playing {
      return;
    }
    ghost var w := World(gs.Snapshot(), p.State(), lvl.objects, lvl.projectiles);
    var toCheck := MoveAndProbe(p, lvl.objects, held, ov);
    ghost var m := Moved(w.body, w.objects, held, ov);
    var removed := DispatchAll(p, lvl, gs, toCheck);
    ghost var d := Dispatched(w, held, ov);
    assert removed == d.removed && lvl.objects == d.objects;
    DispatchOutcome(Outcome(w.status, m.0, w.objects, []), m.1, 0);
    SameLayoutDistinct(w.objects, d.objects);
    HitByProjectiles(p, lvl, gs, ov);
    lvl.RemoveCollected(removed);
  }
}
