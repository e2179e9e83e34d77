/** What a completed tick leaves behind: its lists are empty, no projectile has expired or
    left the map, and nobody who is due to respawn is still defeated. */
module TickEnd {
  import opened Basics
  import opened Replication
  import opened Motion
  import opened Simulation
  import opened Structure

  ghost predicate Aloft(config: Config, w: World, id: EntityId) {
    id in w.entities && w.entities[id].projectile.Some? ==>
      w.time < w.entities[id].projectile.value.expiresAt && !OffMap(config, w.entities[id].body)
  }

  ghost predicate Settled(w: World, id: EntityId) {
    id in w.entities && w.entities[id].Defeated() ==> w.time < w.entities[id].player.value.respawnAt
  }

  // --- the projectile pass ---

  /** Flying one projectile leaves every other one as it was. */
  ghost predicate OthersAlone(w: World, next: World, id: EntityId) {
    && next.time == w.time && next.tick == w.tick
    && Projectiles(next) == Projectiles(w)
    && (forall q :: q in Projectiles(w) && q != id ==> next.entities[q] == w.entities[q])
    && w.doomed <= next.doomed
    && next.requests == w.requests
  }

  lemma StrikeFacts(config: Config, w: World, projectile: EntityId, source: Projectile, target: EntityId)
    requires Shaped(config, w) && target in w.entities && w.entities[target].player.Some?
    ensures var next := Strike(config, w, projectile, source, target);
            next.doomed == w.doomed + [projectile] && OthersAlone(w, next, projectile)
  {
    EntityOkUnfold(config, w, target);
  }

  lemma DriftLeavesOthersAlone(config: Config, w: World, id: EntityId)
    requires id in Projectiles(w)
    ensures OthersAlone(w, w.Change(id, w.entities[id].(body := Drifted(config.rules.tickMs, w.entities[id].body)), []), id)
  {
  }

  lemma OthersAloneTwice(w: World, between: World, next: World, id: EntityId)
    requires OthersAlone(w, between, id) && OthersAlone(between, next, id)
    ensures OthersAlone(w, next, id)
  {
  }

  lemma DoomLeavesOthersAlone(w: World, id: EntityId)
    ensures OthersAlone(w, w.(doomed := w.doomed + [id]), id)
  {
  }

  lemma AloftUnfold(config: Config, w: World, id: EntityId)
    requires id in w.entities && w.entities[id].projectile.Some?
    requires w.time < w.entities[id].projectile.value.expiresAt && !OffMap(config, w.entities[id].body)
    ensures Aloft(config, w, id)
  {
  }

  lemma FlyFacts(config: Config, order: Order, w: World, id: EntityId)
    requires Shaped(config, w) && id in Projectiles(w)
    ensures var next := Fly(config, order, w, id);
            OthersAlone(w, next, id) && (Aloft(config, next, id) || id in next.doomed)
  {
    var e := w.entities[id];
    var body := Drifted(config.rules.tickMs, e.body);
    var flown := w.Change(id, e.(body := body), []);
    FlownKeepsShape(config, w, id);
    DriftLeavesOthersAlone(config, w, id);
    hide Shaped, Drifted, Strike, OffMap, FirstHit, OthersAlone, Aloft, Players, EntityOk;
    if w.time >= e.projectile.value.expiresAt || OffMap(config, body) {
      DoomLeavesOthersAlone(flown, id);
      OthersAloneTwice(w, flown, Fly(config, order, w, id), id);
    } else {
      AloftUnfold(config, flown, id);
      var hit := FirstHit(flown, e.projectile.value.owner, body, order(w.tick, 4 + id, Players(flown)));
      if hit.Some? {
        StrikeFacts(config, flown, id, e.projectile.value, hit.value);
        OthersAloneTwice(w, flown, Fly(config, order, w, id), id);
      }
    }
  }

  ghost predicate FlownUpTo(config: Config, w: World, walk: seq<EntityId>, n: nat)
    requires n <= |walk|
  {
    forall k :: 0 <= k < n ==> Aloft(config, w, walk[k]) || walk[k] in w.doomed
  }

  lemma FlyExtends(config: Config, order: Order, w: World, walk: seq<EntityId>, n: nat)
    requires Shaped(config, w) && Enumerates(walk, Projectiles(w)) && n < |walk| && FlownUpTo(config, w, walk, n)
    ensures var next := Fly(config, order, w, walk[n]);
            FlownUpTo(config, next, walk, n + 1) && Enumerates(walk, Projectiles(next))
            && next.time == w.time && next.requests == w.requests
  {
    assert walk[n] in walk;
    FlyFacts(config, order, w, walk[n]);
    var next := Fly(config, order, w, walk[n]);
    hide Fly, Shaped, OffMap;
    forall k | 0 <= k < n
      ensures Aloft(config, next, walk[k]) || walk[k] in next.doomed
    {
      assert walk[k] in walk;
      assert walk[k] in Projectiles(w);
      assert next.entities[walk[k]] == w.entities[walk[k]];
    }
  }

  lemma {:induction false} FlyPass(config: Config, order: Order, w: World, walk: seq<EntityId>, ops: seq<Op>, n: nat)
    requires Shaped(config, w) && Enumerates(walk, Projectiles(w)) && n <= |walk| == |ops|
    requires forall k :: 0 <= k < |ops| ==> ops[k] == DoFly(walk[k])
    ensures var next := Exec(config, order, w, ops, n);
            FlownUpTo(config, next, walk, n) && Enumerates(walk, Projectiles(next))
            && next.time == w.time && next.requests == w.requests
  {
    hide *;
    ExecUnfold(config, order, w, ops, n);
    if n > 0 {
      FlyPass(config, order, w, walk, ops, n - 1);
      ExecKeepsShape(config, order, w, ops, n - 1);
      FlyExtends(config, order, Exec(config, order, w, ops, n - 1), walk, n - 1);
      DoFlyUnfold(config, order, Exec(config, order, w, ops, n - 1), walk[n - 1]);
    } else {
      NoneFlown(config, w, walk);
    }
  }

  lemma NoneFlown(config: Config, w: World, walk: seq<EntityId>)
    ensures FlownUpTo(config, w, walk, 0)
  {
  }

  lemma DoFlyUnfold(config: Config, order: Order, w: World, id: EntityId)
    ensures Do(config, order, w, DoFly(id)) == Fly(config, order, w, id)
  {
  }

  lemma {:induction false} DestroyPass(config: Config, order: Order, w: World, ops: seq<Op>, n: nat)
    requires n <= |w.doomed| == |ops|
    requires forall k :: 0 <= k < |ops| ==> ops[k] == DoDestroy
    ensures var next := Exec(config, order, w, ops, n);
            && next == w.(entities := next.entities, doomed := w.doomed[n..])
            && (forall id :: id in next.entities <==> id in w.entities && id !in w.doomed[..n])
            && (forall id :: id in next.entities ==> next.entities[id] == w.entities[id])
  {
    if n > 0 {
      DestroyPass(config, order, w, ops, n - 1);
      assert w.doomed[..n] == w.doomed[..n - 1] + [w.doomed[n - 1]];
    }
  }

  /** After the projectile pass no projectile is left that has expired or left the map. */
  lemma ProjectilesAreAloft(config: Config, order: Order, w: World)
    requires Shaped(config, w) && ValidOrder(order)
    ensures var next := ProcessProjectiles(config, order, w);
            && (forall id :: Aloft(config, next, id)) && next.doomed == [] && next.requests == w.requests && next.time == w.time
  {
    var walk := order(w.tick, 2, Projectiles(w));
    var ops := FlyOps(order, w);
    assert Enumerates(walk, Projectiles(w));
    hide Shaped, Aloft;
    FlyPass(config, order, w, walk, ops, |ops|);
    var flown := Pass(config, order, w, ops);
    DestroyPass(config, order, flown, DestroyOps(flown), |flown.doomed|);
    var next := ProcessProjectiles(config, order, w);
    assert flown.doomed[..|flown.doomed|] == flown.doomed;
    forall id
      ensures Aloft(config, next, id)
    {
      if id in next.entities && id in Projectiles(flown) {
        assert id in walk;
        var k :| 0 <= k < |walk| && walk[k] == id;
        assert Aloft(config, flown, walk[k]);
      }
      AloftTransfers(config, flown, next, id);
    }
  }

  lemma AloftTransfers(config: Config, w: World, next: World, id: EntityId)
    requires next.time == w.time
    requires id in next.entities ==> id in w.entities && next.entities[id] == w.entities[id]
    requires id in next.entities && id in Projectiles(w) ==> Aloft(config, w, id)
    ensures Aloft(config, next, id)
  {
  }

  // --- the respawn pass ---

  ghost predicate OnlyPlayersChange(w: World, next: World) {
    && next.entities.Keys == w.entities.Keys
    && (forall q :: q in w.entities && w.entities[q].player.None? ==> next.entities[q] == w.entities[q])
    && (forall q :: q in w.entities ==> next.entities[q].player.Some? == w.entities[q].player.Some?)
    && (forall q :: q in w.entities ==> next.entities[q].projectile == w.entities[q].projectile)
  }

  lemma RespawnFacts(config: Config, w: World, id: EntityId)
    ensures var next := Respawn(config, w, id);
            && next.time == w.time && next.tick == w.tick && next.requests == w.requests && next.doomed == w.doomed
            && OnlyPlayersChange(w, next)
            && (forall q :: q in w.entities && q != id ==> next.entities[q] == w.entities[q])
            && Settled(next, id)
  {
  }

  lemma {:induction false} RespawnPass(config: Config, order: Order, w: World, walk: seq<EntityId>, ops: seq<Op>, n: nat)
    requires Distinct(walk) && n <= |walk| == |ops|
    requires forall k :: 0 <= k < |ops| ==> ops[k] == DoRespawn(walk[k])
    ensures var next := Exec(config, order, w, ops, n);
            && next.time == w.time && next.requests == w.requests && next.doomed == w.doomed
            && OnlyPlayersChange(w, next)
            && (forall k :: 0 <= k < n ==> Settled(next, walk[k]))
  {
    if n > 0 {
      RespawnPass(config, order, w, walk, ops, n - 1);
      RespawnFacts(config, Exec(config, order, w, ops, n - 1), walk[n - 1]);
      hide Respawn;
    }
  }

  /** After the respawn pass everyone still defeated has a respawn time in the future. */
  lemma EveryoneIsSettled(config: Config, order: Order, w: World)
    requires ValidOrder(order)
    ensures var next := ProcessRespawns(config, order, w);
            && (forall id :: Settled(next, id))
            && next.time == w.time && next.requests == w.requests && next.doomed == w.doomed
            && OnlyPlayersChange(w, next)
  {
    var walk := order(w.tick, 3, Players(w));
    assert Enumerates(walk, Players(w));
    RespawnPass(config, order, w, walk, RespawnOps(order, w), |walk|);
    var next := ProcessRespawns(config, order, w);
    hide Exec, Settled;
    forall id
      ensures Settled(next, id)
    {
      if id in Players(w) {
        assert id in walk;
        var k :| 0 <= k < |walk| && walk[k] == id;
        assert Settled(next, walk[k]);
      } else {
        NonPlayerIsSettled(next, id);
      }
    }
  }

  lemma NonPlayerIsSettled(w: World, id: EntityId)
    requires id in w.entities ==> w.entities[id].player.None?
    ensures Settled(w, id)
  {
  }

  // --- the warm-up pass ---

  lemma {:induction false} LaunchPass(config: Config, order: Order, w: World, ops: seq<Op>, n: nat)
    requires n <= |w.requests| == |ops|
    requires forall k :: 0 <= k < |ops| ==> ops[k] == DoLaunch
    ensures var next := Exec(config, order, w, ops, n);
            next.requests == w.requests[n..] && next.time == w.time && next.doomed == w.doomed
  {
    if n > 0 {
      LaunchPass(config, order, w, ops, n - 1);
    }
  }

  lemma WarmupsAreLaunched(config: Config, order: Order, w: World)
    ensures ProcessWeaponWarmups(config, order, w).requests == []
  {
    var warmed := Pass(config, order, w, WarmOps(order, w));
    LaunchPass(config, order, warmed, LaunchOps(warmed), |warmed.requests|);
    hide Exec;
  }

  // --- the whole tick ---

  ghost predicate TickDone(config: Config, w: World) {
    && w.requests == [] && w.doomed == []
    && (forall id :: Aloft(config, w, id))
    && (forall id :: Settled(w, id))
  }

  lemma PassKeepsShape(config: Config, order: Order, w: World, ops: seq<Op>)
    requires Shaped(config, w)
    ensures Shaped(config, Pass(config, order, w, ops))
  {
    ExecKeepsShape(config, order, w, ops, |ops|);
  }

  lemma AdvanceKeepsShape(config: Config, w: World)
    requires Shaped(config, w)
    ensures Shaped(config, Advance(config, w))
  {
    ListsKeepShape(config, w, Advance(config, w));
  }

  lemma InputsKeepShape(config: Config, order: Order, w: World)
    requires Shaped(config, w)
    ensures Shaped(config, ProcessInputs(config, order, w))
  {
    hide Shaped;
    var applied := Pass(config, order, w, InputOps(w));
    PassKeepsShape(config, order, w, InputOps(w));
    PassKeepsShape(config, order, applied, MoveOps(order, applied));
  }

  lemma WarmupsKeepShape(config: Config, order: Order, w: World)
    requires Shaped(config, w)
    ensures Shaped(config, ProcessWeaponWarmups(config, order, w))
  {
    hide Shaped;
    var warmed := Pass(config, order, w, WarmOps(order, w));
    PassKeepsShape(config, order, w, WarmOps(order, w));
    PassKeepsShape(config, order, warmed, LaunchOps(warmed));
  }

  lemma ProjectilesKeepShape(config: Config, order: Order, w: World)
    requires Shaped(config, w)
    ensures Shaped(config, ProcessProjectiles(config, order, w))
  {
    hide Shaped;
    var flown := Pass(config, order, w, FlyOps(order, w));
    PassKeepsShape(config, order, w, FlyOps(order, w));
    PassKeepsShape(config, order, flown, DestroyOps(flown));
  }

  lemma TickKeepsShape(config: Config, order: Order, w: World)
    requires Shaped(config, w)
    ensures Shaped(config, TickFixed(config, order, w))
  {
    hide *;
    AdvanceKeepsShape(config, w);
    PassKeepsShape(config, order, Advance(config, w), TickOps(config, order, w));
    TickIsOps(config, order, w);
  }

  /** At the end of every tick: nothing half done, no stale projectile, nobody overdue. */
  lemma TickIsDone(config: Config, order: Order, w: World)
    requires Shaped(config, w) && ValidOrder(order)
    ensures TickDone(config, TickFixed(config, order, w))
  {
    hide *;
    AdvanceKeepsShape(config, w);
    InputsKeepShape(config, order, Advance(config, w));
    var moved := ProcessInputs(config, order, Advance(config, w));
    WarmupsKeepShape(config, order, moved);
    WarmupsAreLaunched(config, order, moved);
    var fired := ProcessWeaponWarmups(config, order, moved);
    ProjectilesKeepShape(config, order, fired);
    ProjectilesAreAloft(config, order, fired);
    var flown := ProcessProjectiles(config, order, fired);
    EveryoneIsSettled(config, order, flown);
    TickUnfold(config, order, w);
    Assembled(config, flown, ProcessRespawns(config, order, flown));
  }

  lemma Assembled(config: Config, flown: World, done: World)
    requires flown.requests == [] && flown.doomed == [] && Shaped(config, flown)
    requires forall id :: Aloft(config, flown, id)
    requires forall id :: Settled(done, id)
    requires done.time == flown.time && done.requests == flown.requests && done.doomed == flown.doomed
    requires OnlyPlayersChange(flown, done)
    ensures TickDone(config, done)
  {
    forall id
      ensures Aloft(config, done, id)
    {
      assert Aloft(config, flown, id);
      if id in flown.entities {
        EntityOkUnfold(config, flown, id);
      }
    }
  }
}
