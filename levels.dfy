/** The live lists of a level, `objects` and `projectiles`, changed in place by
    `update_enemies_and_projectiles`. */
module Levels {
  import opened Common
  import opened Entities

  /** No two entries of the object list are the same Python object. */
  predicate DistinctIds(objs: seq<LevelObject>) {
    forall a, b :: 0 <= a < b < |objs| ==> objs[a].id != objs[b].id
  }

  function ShooterCount(objs: seq<LevelObject>): nat
    decreases |objs|
  {
    if objs == [] then 0
    else
      var last := objs[|objs| - 1];
      ShooterCount(objs[..|objs| - 1]) + (if last.kind.Foe? && last.kind.enemy.etype == Shooter then 1 else 0)
  }

  /** The enemy loop of `update_enemies_and_projectiles`, over a prefix of the
      list: every object as `UpdateObject` leaves it, in place, and the shots
      appended, in list order. A shooter adds at most one shot; nothing else does. */
  function UpdateAll(objs: seq<LevelObject>, player: (real, real)): (r: (seq<LevelObject>, seq<Projectile>))
    ensures |r.0| == |objs|
    ensures forall k :: 0 <= k < |objs| ==> r.0[k] == UpdateObject(objs[k], player).0
    ensures |r.1| <= ShooterCount(objs)
    decreases |objs|
  {
    if objs == [] then ([], [])
    else
      var front := UpdateAll(objs[..|objs| - 1], player);
      var (o, shot) := UpdateObject(objs[|objs| - 1], player);
      (front.0 + [o], front.1 + (if shot.Some? then [shot.value] else []))
  }

  /** The projectile loop: every projectile moves, and those that end up more
      than 50 px outside the window are dropped, the rest keeping their order. */
  function Cull(ps: seq<Projectile>): (r: seq<Projectile>)
    ensures |r| <= |ps|
    ensures forall q :: q in r ==> OnScreen(q)
    ensures forall k :: 0 <= k < |ps| && OnScreen(Advance(ps[k])) ==> Advance(ps[k]) in r
  {
    Filter(MapSeq(ps, Advance), OnScreen)
  }

  /** The enemy loop is a pass over the list in order: running it on two
      pieces one after the other is running it on the whole. */
  lemma {:induction false} UpdateAllConcat(a: seq<LevelObject>, b: seq<LevelObject>, player: (real, real))
    ensures UpdateAll(a + b, player).0 == UpdateAll(a, player).0 + UpdateAll(b, player).0
    ensures UpdateAll(a + b, player).1 == UpdateAll(a, player).1 + UpdateAll(b, player).1
    decreases |b|
  {
    if b == [] {
      assert a + b == a;
    } else {
      var b' := b[..|b| - 1];
      assert (a + b)[..|a + b| - 1] == a + b';
      assert (a + b)[|a + b| - 1] == b[|b| - 1];
      UpdateAllConcat(a, b', player);
    }
  }

  /** On one object the loop gives the updated object and the shot it fired, if any. */
  lemma UpdateAllSingle(o: LevelObject, player: (real, real))
    ensures UpdateAll([o], player).0 == [UpdateObject(o, player).0]
    ensures var shot := UpdateObject(o, player).1;
      UpdateAll([o], player).1 == if shot.Some? then [shot.value] else []
  {
    assert [o][..0] == [];
    assert UpdateAll([], player) == ([], []);
  }

  /** Every new shot is the one some object of the list fires. */
  lemma {:induction false} UpdateAllShotsFired(objs: seq<LevelObject>, player: (real, real))
    ensures forall q :: q in UpdateAll(objs, player).1 ==>
              exists k :: 0 <= k < |objs| && UpdateObject(objs[k], player).1 == Some(q)
    decreases |objs|
  {
    if objs != [] {
      var front := objs[..|objs| - 1];
      UpdateAllShotsFired(front, player);
      forall q | q in UpdateAll(objs, player).1
        ensures exists k :: 0 <= k < |objs| && UpdateObject(objs[k], player).1 == Some(q)
      {
        if q in UpdateAll(front, player).1 {
          var k :| 0 <= k < |front| && UpdateObject(front[k], player).1 == Some(q);
          assert objs[k] == front[k];
        } else {
          assert UpdateObject(objs[|objs| - 1], player).1 == Some(q);
        }
      }
    }
  }

  /** The cull is a pass over the list in order: culling two pieces one after
      the other is culling the whole, and one projectile survives, moved, iff
      it ends up near the window. Together these fix `Cull` completely. */
  lemma CullConcat(a: seq<Projectile>, b: seq<Projectile>)
    ensures Cull(a + b) == Cull(a) + Cull(b)
  {
    MapAppend(a, b, Advance);
    FilterAppend(MapSeq(a, Advance), MapSeq(b, Advance), OnScreen);
  }

  lemma CullSingle(p: Projectile)
    ensures Cull([p]) == if OnScreen(Advance(p)) then [Advance(p)] else []
  {
    assert MapSeq([p], Advance) == [Advance(p)];
    FilterSingle(Advance(p), OnScreen);
  }

  /** Every survivor is some input projectile, moved. */
  lemma CullSurvivorsMoved(ps: seq<Projectile>)
    ensures forall q :: q in Cull(ps) ==> exists k :: 0 <= k < |ps| && q == Advance(ps[k])
  {
    forall q | q in Cull(ps)
      ensures exists k :: 0 <= k < |ps| && q == Advance(ps[k])
    {
      var m := MapSeq(ps, Advance);
      assert q in m;
      var k :| 0 <= k < |m| && m[k] == q;
      assert q == Advance(ps[k]);
    }
  }

  /** The enemy update keeps every id in place, so distinct ids stay distinct. */
  lemma UpdateKeepsIds(objs: seq<LevelObject>, player: (real, real))
    requires DistinctIds(objs)
    ensures DistinctIds(UpdateAll(objs, player).0)
    ensures forall k :: 0 <= k < |objs| ==> UpdateAll(objs, player).0[k].id == objs[k].id
    ensures forall k :: 0 <= k < |objs| && !objs[k].kind.Foe? ==> UpdateAll(objs, player).0[k] == objs[k]
  {
    var r := UpdateAll(objs, player).0;
    forall k | 0 <= k < |objs|
      ensures r[k].id == objs[k].id
    {
      assert r[k] == UpdateObject(objs[k], player).0;
    }
  }

  lemma UpdateAllStep(objs: seq<LevelObject>, i: nat, player: (real, real))
    requires i < |objs|
    ensures UpdateAll(objs[..i + 1], player).0 == UpdateAll(objs[..i], player).0 + [UpdateObject(objs[i], player).0]
    ensures var shot := UpdateObject(objs[i], player).1;
      UpdateAll(objs[..i + 1], player).1 == UpdateAll(objs[..i], player).1 + (if shot.Some? then [shot.value] else [])
  {
    assert objs[..i + 1][..i] == objs[..i];
  }

  lemma CullStep(ps: seq<Projectile>, i: nat)
    requires i < |ps|
    ensures Cull(ps[..i + 1]) == Cull(ps[..i]) + (if OnScreen(Advance(ps[i])) then [Advance(ps[i])] else [])
  {
    assert ps[..i + 1] == ps[..i] + [ps[i]];
    MapAppend(ps[..i], [ps[i]], Advance);
    assert MapSeq([ps[i]], Advance) == [Advance(ps[i])];
    FilterAppend(MapSeq(ps[..i], Advance), [Advance(ps[i])], OnScreen);
    FilterSingle(Advance(ps[i]), OnScreen);
  }

  /** `obj in objects`: the index of the first entry with this id, if any. */
  function FindId(objs: seq<LevelObject>, id: nat): (r: Option<nat>)
    ensures r.Some? ==> r.value < |objs| && objs[r.value].id == id
    ensures r.Some? ==> forall k :: 0 <= k < r.value ==> objs[k].id != id
    ensures r.None? <==> forall k :: 0 <= k < |objs| ==> objs[k].id != id
    decreases |objs|
  {
    if objs == [] then None
    else if objs[0].id == id then Some(0)
    else match FindId(objs[1..], id)
      case None => None
      case Some(k) => Some(k + 1)
  }

  /** `objects.remove(obj)`: removal of the first entry with this id; a
      missing id removes nothing. */
  function RemoveId(objs: seq<LevelObject>, id: nat): seq<LevelObject>
    decreases |objs|
  {
    if objs == [] then []
    else if objs[0].id == id then objs[1..]
    else [objs[0]] + RemoveId(objs[1..], id)
  }

  /** Removing by id cuts out the entry `FindId` locates, or nothing. */
  lemma {:induction false} RemoveFound(objs: seq<LevelObject>, id: nat)
    ensures FindId(objs, id).None? ==> RemoveId(objs, id) == objs
    ensures FindId(objs, id).Some? ==>
              var k := FindId(objs, id).value;
              RemoveId(objs, id) == objs[..k] + objs[k + 1..]
    decreases |objs|
  {
    if objs != [] && objs[0].id != id {
      RemoveFound(objs[1..], id);
      var f := FindId(objs[1..], id);
      assert RemoveId(objs, id) == [objs[0]] + RemoveId(objs[1..], id);
      if f.Some? {
        assert FindId(objs, id) == Some(f.value + 1);
        assert objs[..f.value + 1] == [objs[0]] + objs[1..][..f.value];
        assert objs[f.value + 2..] == objs[1..][f.value + 1..];
      } else {
        assert FindId(objs, id) == None;
        assert objs == [objs[0]] + objs[1..];
      }
    }
  }

  /** The enemy loop on the list's values: each enemy moves in place and the
      shots it fires are collected in list order. */
  method UpdateEnemyList(objs: seq<LevelObject>, player: (real, real))
    returns (updated: seq<LevelObject>, shots: seq<Projectile>)
    ensures updated == UpdateAll(objs, player).0 && shots == UpdateAll(objs, player).1
  {
    updated, shots := objs, [];
    var i := 0;
    while i < |objs|
      invariant 0 <= i <= |objs| == |updated|
      invariant forall k :: 0 <= k < i ==> updated[k] == UpdateObject(objs[k], player).0
      invariant forall k :: i <= k < |objs| ==> updated[k] == objs[k]
      invariant shots == UpdateAll(objs[..i], player).1
    {
      UpdateAllStep(objs, i, player);
      var o := updated[i];
      if o.kind.Foe? {
        var r := UpdateObject(o, player);  // `enemy.update(player_x, player_y)`
        updated := updated[i := r.0];
        if r.1.Some? {
          shots := shots + [r.1.value];
        }
      }
      i := i + 1;
    }
    assert objs[..i] == objs;
    assert forall k :: 0 <= k < |objs| ==> updated[k] == UpdateAll(objs, player).0[k];
    assert updated == UpdateAll(objs, player).0;
  }

  /** The projectile loop over `projectiles[:]`: each projectile moves, and one
      that ends up off screen is removed from the live list. */
  method CullList(snapshot: seq<Projectile>) returns (live: seq<Projectile>)
    ensures live == Cull(snapshot)
  {
    live := snapshot;
    var k, j := 0, 0;
    while k < |snapshot|
      invariant 0 <= k <= |snapshot| && 0 <= j <= |live|
      invariant live[..j] == Cull(snapshot[..k])
      invariant live[j..] == snapshot[k..]
    {
      CullStep(snapshot, k);
      assert live[j..][0] == snapshot[k..][0];
      assert live[j..][1..] == snapshot[k..][1..];
      var p := Advance(live[j]);
      if !OnScreen(p) {
        CutAt(live, j);
        live := live[..j] + live[j + 1..];
      } else {
        OverwriteAt(live, j, p);
        live := live[j := p];
        j := j + 1;
      }
      k := k + 1;
    }
    assert snapshot[..k] == snapshot;
    assert live[j..] == [];
  }

  /** The linear search behind `obj in objects`: the first index holding this
      id, or the length when there is none. */
  method IndexOfId(objs: seq<LevelObject>, id: nat) returns (k: nat)
    ensures k <= |objs|
    ensures FindId(objs, id) == if k < |objs| then Some(k) else None
  {
    k := 0;
    while k < |objs| && objs[k].id != id
      invariant k <= |objs|
      invariant forall j :: 0 <= j < k ==> objs[j].id != id
    {
      k := k + 1;
    }
  }

  lemma RemoveIdDistinct(objs: seq<LevelObject>, id: nat)
    requires DistinctIds(objs)
    ensures DistinctIds(RemoveId(objs, id))
  {
    RemoveIdIsFilter(objs, id);
  }

  /** The removal loop at the end of `handle_move`. */
  function RemoveAll(objs: seq<LevelObject>, ids: seq<nat>): seq<LevelObject>
    decreases |ids|
  {
    if ids == [] then objs else RemoveAll(RemoveId(objs, ids[0]), ids[1..])
  }

  function KeepOtherThan(id: nat): LevelObject -> bool {
    (o: LevelObject) => o.id != id
  }

  function KeepNone(ids: seq<nat>): LevelObject -> bool {
    (o: LevelObject) => o.id !in ids
  }

  lemma {:induction false} FilterKeepsAll<T>(s: seq<T>, keep: T -> bool)
    requires forall k :: 0 <= k < |s| ==> keep(s[k])
    ensures Filter(s, keep) == s
  {
    if s != [] {
      FilterKeepsAll(s[1..], keep);
    }
  }

  /** Filtering twice is filtering once by both conditions. */
  lemma {:induction false} FilterTwice<T>(s: seq<T>, p: T -> bool, q: T -> bool, both: T -> bool)
    requires forall x :: both(x) == (p(x) && q(x))
    ensures Filter(Filter(s, p), q) == Filter(s, both)
  {
    if s != [] {
      FilterTwice(s[1..], p, q, both);
      FilterAppend(if p(s[0]) then [s[0]] else [], Filter(s[1..], p), q);
      if p(s[0]) {
        FilterSingle(s[0], q);
      }
    }
  }

  lemma {:induction false} DistinctTail(objs: seq<LevelObject>)
    requires DistinctIds(objs) && objs != []
    ensures DistinctIds(objs[1..])
    ensures forall k :: 1 <= k < |objs| ==> objs[k].id != objs[0].id
  {
  }

  /** With distinct ids, removing an id is filtering it out. */
  lemma {:induction false} RemoveIdIsFilter(objs: seq<LevelObject>, id: nat)
    requires DistinctIds(objs)
    ensures RemoveId(objs, id) == Filter(objs, KeepOtherThan(id))
    ensures DistinctIds(RemoveId(objs, id))
    decreases |objs|
  {
    if objs != [] {
      DistinctTail(objs);
      if objs[0].id == id {
        FilterKeepsAll(objs[1..], KeepOtherThan(id));
      } else {
        RemoveIdIsFilter(objs[1..], id);
      }
    }
    FilterDistinct(objs, KeepOtherThan(id));
  }

  /** Filtering a list with distinct ids leaves distinct ids. */
  lemma {:induction false} FilterDistinct(objs: seq<LevelObject>, keep: LevelObject -> bool)
    requires DistinctIds(objs)
    ensures DistinctIds(Filter(objs, keep))
    decreases |objs|
  {
    if objs != [] {
      DistinctTail(objs);
      FilterDistinct(objs[1..], keep);
      var rest := Filter(objs[1..], keep);
      forall k | 0 <= k < |rest|
        ensures rest[k].id != objs[0].id
      {
        assert rest[k] in objs[1..];
      }
    }
  }

  /** With distinct ids, the removal loop keeps exactly the objects whose ids
      were not collected, in their original order. */
  lemma {:induction false} RemoveAllIsFilter(objs: seq<LevelObject>, ids: seq<nat>)
    requires DistinctIds(objs)
    ensures RemoveAll(objs, ids) == Filter(objs, KeepNone(ids))
    ensures DistinctIds(RemoveAll(objs, ids))
    decreases |ids|
  {
    if ids == [] {
      FilterKeepsAll(objs, KeepNone(ids));
    } else {
      RemoveIdIsFilter(objs, ids[0]);
      var rest := RemoveId(objs, ids[0]);
      RemoveAllIsFilter(rest, ids[1..]);
      forall x: LevelObject
        ensures KeepNone(ids)(x) == (KeepOtherThan(ids[0])(x) && KeepNone(ids[1..])(x))
      {
        assert ids == [ids[0]] + ids[1..];
      }
      FilterTwice(objs, KeepOtherThan(ids[0]), KeepNone(ids[1..]), KeepNone(ids));
    }
  }

  class Level {
    var objects: seq<LevelObject>
    var projectiles: seq<Projectile>

    predicate Valid()
      reads this
    {
      DistinctIds(objects)
    }

    /** `create_level` hands over a fresh object list and no projectiles. */
    constructor (objs: seq<LevelObject>)
      requires DistinctIds(objs)
      ensures Valid() && objects == objs && projectiles == []
    {
      objects := objs;
      projectiles := [];
    }

    /** Replace the lists by those of a freshly created level. */
    method Load(objs: seq<LevelObject>)
      requires DistinctIds(objs)
      modifies this
      ensures Valid() && objects == objs && projectiles == []
    {
      objects := objs;
      projectiles := [];
    }

    /** `update_enemies_and_projectiles(objects, projectiles, player_pos)`. */
    method UpdateEnemiesAndProjectiles(player: (real, real))
      requires Valid()
      modifies this
      ensures Valid()
      ensures objects == UpdateAll(old(objects), player).0
      ensures projectiles == Cull(old(projectiles) + UpdateAll(old(objects), player).1)
    {
      UpdateEnemies(player);
      UpdateProjectiles();
    }

    /** The first loop: each enemy updates in place and may append a shot. */
    method UpdateEnemies(player: (real, real))
      requires Valid()
      modifies this
      ensures Valid()
      ensures objects == UpdateAll(old(objects), player).0
      ensures projectiles == old(projectiles) + UpdateAll(old(objects), player).1
    {
      UpdateKeepsIds(objects, player);
      var objs, shots := UpdateEnemyList(objects, player);
      objects, projectiles := objs, projectiles + shots;
    }

    /** The second loop, over a copy: each projectile moves, and is removed from
        the live list if it has left the screen. */
    method UpdateProjectiles()
      modifies this
      ensures objects == old(objects)
      ensures projectiles == Cull(old(projectiles))
    {
      projectiles := CullList(projectiles);
    }

    /** `for obj in objects_to_remove: if obj in objects: objects.remove(obj)`. */
    method RemoveCollected(ids: seq<nat>)
      requires Valid()
      modifies this
      ensures Valid()
      ensures objects == RemoveAll(old(objects), ids)
      ensures projectiles == old(projectiles)
    {
      var n := 0;
      while n < |ids|
        invariant 0 <= n <= |ids|
        invariant Valid()
        invariant RemoveAll(objects, ids[n..]) == RemoveAll(old(objects), ids)
        invariant projectiles == old(projectiles)
      {
        assert ids[n..][1..] == ids[n + 1..];
        RemoveObject(ids[n]);
        n := n + 1;
      }
    }

    /** `if obj in objects: objects.remove(obj)`, by id. */
    method RemoveObject(id: nat)
      requires Valid()
      modifies this
      ensures Valid()
      ensures objects == RemoveId(old(objects), id)
      ensures projectiles == old(projectiles)
    {
      var objs := objects;
      var k := IndexOfId(objs, id);
      RemoveFound(objs, id);
      RemoveIdDistinct(objs, id);
      if k < |objs| {
        objects := objs[..k] + objs[k + 1..];
      }
    }

  }
}
