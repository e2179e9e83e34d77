/** What holds of every entity of a reachable server world: health, defeat, respawn time,
    position and speed. */
module LifeCycle {
  import opened Basics
  import opened Replication
  import opened Events
  import opened Motion
  import opened Simulation
  import opened Structure

  /** Configurations the results are about: non-negative damage, some health, time that
      passes, a map with room for the spawn tiles. */
  ghost predicate Sane(config: Config) {
    && config.mode == ServerAuthoritative
    && config.maxHealth > 0
    && config.rules.tickMs > 0
    && config.rules.maxSpeed >= 0
    && config.rules.map_.tileSize > 0
    && config.rules.map_.widthTiles >= 30 && config.rules.map_.heightTiles >= 30
    && (forall k :: 0 <= k < |config.weapons| ==> config.weapons[k].damage >= 0)
  }

  ghost predicate PlayerAlive(config: Config, time: Time, e: Entity)
    requires e.player.Some?
  {
    var p := e.player.value;
    && 0 <= p.health <= config.maxHealth
    && p.maxHealth == config.maxHealth
    && (p.defeated <==> p.health == 0)
    && (p.defeated ==> p.respawnAt <= time + config.respawnDelay)
    && (e.Warming() ==> FindWeapon(config.weapons, e.weapon.value.weaponType).Some?)
    && InMap(config.rules.map_, e.body.x, e.body.y)
    && SpeedOk(config.rules, e.body)
  }

  ghost predicate Lives(config: Config, time: Time, e: Entity) {
    e.player.Some? ==> PlayerAlive(config, time, e)
  }

  ghost predicate AllLive(config: Config, w: World) {
    forall id :: id in w.entities ==> Lives(config, w.time, w.entities[id])
  }

  // --- one entity ---

  lemma SpawnIsOnMap(config: Config, client: ClientId)
    requires Sane(config)
    ensures InMap(config.rules.map_, Spawn(config, client).0, Spawn(config, client).1)
    ensures config.rules.map_.Width() > 0 && config.rules.map_.Height() > 0
  {
    var m := config.rules.map_;
    TileInside(10 + client % 20, m.widthTiles, m.tileSize);
    TileInside(10 + (client / 20) % 20, m.heightTiles, m.tileSize);
  }

  lemma TileInside(tile: nat, tiles: nat, size: nat)
    requires tile < 30 <= tiles && size > 0
    ensures 0 <= tile * size < tiles * size
  {
    MonotoneProduct(tile + 1, tiles, size);
    assert (tile + 1) * size == tile * size + size;
  }

  lemma RespondingLives(config: Config, time: Time, e: Entity, frame: InputFrame)
    requires Lives(config, time, e)
    ensures Lives(config, time, Responding(config, time, e, frame))
  {
  }

  lemma SteppedLives(config: Config, time: Time, e: Entity)
    requires Sane(config) && Lives(config, time, e)
    ensures Lives(config, time, Stepped(config.rules, e))
  {
    SpawnIsOnMap(config, 0);
    MovedIsBounded(config.rules, e.body, e.intent);
    hide Moved, InMap, MapConfig.Width, MapConfig.Height;
  }

  lemma CooledLives(config: Config, time: Time, e: Entity)
    requires Lives(config, time, e)
    ensures Lives(config, time, Cooled(e, time))
  {
  }

  lemma {:induction false} FoundDamage(weapons: seq<WeaponDefinition>, source: WeaponType)
    requires forall k :: 0 <= k < |weapons| ==> weapons[k].damage >= 0
    ensures var found := FindWeapon(weapons, source);
            found.Some? ==> found.value.damage >= 0 && found.value.weaponType == source
  {
    if weapons != [] {
      FoundDamage(weapons[1..], source);
    }
  }

  lemma HurtLives(config: Config, time: Time, source: Projectile, e: Entity)
    requires Sane(config) && Lives(config, time, e) && !e.Defeated()
    ensures Lives(config, time, Hurt(config, time, source, e))
  {
    FoundDamage(config.weapons, source.source);
  }

  lemma RevivedLives(config: Config, time: Time, e: Entity)
    requires Sane(config) && Lives(config, time, e) && e.player.Some?
    ensures Lives(config, time, Revived(config, e))
  {
    SpawnIsOnMap(config, e.player.value.client);
    hide Spawn, InMap;
  }

  lemma NewPlayerLives(config: Config, time: Time, client: ClientId)
    requires Sane(config)
    ensures Lives(config, time, NewPlayer(config, client))
  {
    SpawnIsOnMap(config, client);
    hide Spawn, InMap;
  }

  // --- the world ---

  lemma ChangeKeepsLives(config: Config, w: World, id: EntityId, e: Entity, news: seq<DomainEvent>)
    requires AllLive(config, w) && Lives(config, w.time, e)
    ensures AllLive(config, w.Change(id, e, news))
  {
    hide Lives;
  }

  lemma SameEntitiesKeepLives(config: Config, w: World, next: World)
    requires AllLive(config, w) && next.entities == w.entities && next.time == w.time
    ensures AllLive(config, next)
  {
    hide Lives;
  }

  lemma InputKeepsLives(config: Config, w: World, input: Input)
    requires AllLive(config, w)
    ensures AllLive(config, ApplyInput(config, w, input))
  {
    if input.client in w.playerByClient && w.playerByClient[input.client] in w.entities {
      var id := w.playerByClient[input.client];
      var e := w.entities[id];
      RespondingLives(config, w.time, e, input.frame);
      hide AllLive, Lives, Responding, WarmupEvents;
      if !e.Defeated() {
        ChangeKeepsLives(config, w, id, Responding(config, w.time, e, input.frame), WarmupEvents(config, w.time, id, e, input.frame));
      }
    }
  }

  lemma StrikeKeepsLives(config: Config, w: World, projectile: EntityId, source: Projectile, target: EntityId)
    requires Sane(config) && AllLive(config, w) && target in w.entities && !w.entities[target].Defeated()
    ensures AllLive(config, Strike(config, w, projectile, source, target))
  {
    var e := w.entities[target];
    HurtLives(config, w.time, source, e);
    var news := HurtEvents(config, w.time, projectile, source, target, e);
    hide AllLive, Lives, Hurt, HurtEvents;
    ChangeKeepsLives(config, w, target, Hurt(config, w.time, source, e), news);
    SameEntitiesKeepLives(config, w.Change(target, Hurt(config, w.time, source, e), news), Strike(config, w, projectile, source, target));
  }

  lemma FlyKeepsLives(config: Config, order: Order, w: World, id: EntityId)
    requires Sane(config) && Shaped(config, w) && AllLive(config, w)
    ensures AllLive(config, Fly(config, order, w, id))
  {
    if id in w.entities && w.entities[id].projectile.Some? {
      EntityOkUnfold(config, w, id);
      var e := w.entities[id];
      var body := Drifted(config.rules.tickMs, e.body);
      var flown := w.Change(id, e.(body := body), []);
      assert Lives(config, w.time, e.(body := body));
      hide Shaped, EntityOk, AllLive, Lives, CloseEnough, Drifted, Strike, FirstHit;
      ChangeKeepsLives(config, w, id, e.(body := body), []);
      SameEntitiesKeepLives(config, flown, flown.(doomed := flown.doomed + [id]));
      var hit := FirstHit(flown, e.projectile.value.owner, body, order(w.tick, 4 + id, Players(flown)));
      if hit.Some? {
        StrikeKeepsLives(config, flown, id, e.projectile.value, hit.value);
      }
    }
  }

  lemma ClearIntentsKeepsLives(config: Config, w: World)
    requires AllLive(config, w)
    ensures AllLive(config, ClearIntents(w))
  {
  }

  lemma WarmKeepsLives(config: Config, w: World, id: EntityId)
    requires AllLive(config, w)
    ensures AllLive(config, Warm(config, w, id))
  {
    if id in w.entities {
      var e := w.entities[id];
      CooledLives(config, w.time, e);
      hide AllLive, Lives, Cooled, FireEvents, FireRequests;
      var changed := w.Change(id, Cooled(e, w.time), FireEvents(config, id, e, w.time));
      ChangeKeepsLives(config, w, id, Cooled(e, w.time), FireEvents(config, id, e, w.time));
      SameEntitiesKeepLives(config, changed, changed.(requests := w.requests + FireRequests(config, id, e, w.time)));
    }
  }

  lemma LaunchKeepsLives(config: Config, w: World)
    requires AllLive(config, w)
    ensures AllLive(config, Launch(w))
  {
    if w.requests != [] {
      assert Lives(config, w.time, Arrow(w.time, w.requests[0]));
      hide Lives, Arrow;
    }
  }

  lemma RespawnKeepsLives(config: Config, w: World, id: EntityId)
    requires Sane(config) && AllLive(config, w)
    ensures AllLive(config, Respawn(config, w, id))
  {
    if id in w.entities && w.entities[id].Defeated() && w.time >= w.entities[id].player.value.respawnAt {
      var e := Revived(config, w.entities[id]);
      RevivedLives(config, w.time, w.entities[id]);
      hide AllLive, Lives, Revived;
      ChangeKeepsLives(config, w, id, e, [PlayerRespawned(id, e.body.x, e.body.y)]);
    }
  }

  lemma IntegrateKeepsLives(config: Config, w: World, id: EntityId)
    requires Sane(config) && AllLive(config, w)
    ensures AllLive(config, Integrate(config, w, id))
  {
    if id in w.entities {
      var next := Stepped(config.rules, w.entities[id]);
      SteppedLives(config, w.time, w.entities[id]);
      hide AllLive, Lives, Stepped, MoveEvents;
      ChangeKeepsLives(config, w, id, next, MoveEvents(id, w.entities[id], next.body));
    }
  }

  lemma DoKeepsLives(config: Config, order: Order, w: World, op: Op)
    requires Sane(config) && Shaped(config, w) && AllLive(config, w)
    ensures AllLive(config, Do(config, order, w, op))
    ensures Do(config, order, w, op).time == w.time
  {
    hide AllLive, Shaped, Sane;
    match op {
      case DoInput(input) => InputKeepsLives(config, w, input);
      case DoClearPending => SameEntitiesKeepLives(config, w, w.(pending := []));
      case DoIntegrate(id) => IntegrateKeepsLives(config, w, id);
      case DoClearIntents => ClearIntentsKeepsLives(config, w);
      case DoWarm(id) => WarmKeepsLives(config, w, id);
      case DoLaunch => LaunchKeepsLives(config, w);
      case DoFly(id) => FlyKeepsLives(config, order, w, id);
      case DoDestroy => DestroyKeepsLives(config, w);
      case DoRespawn(id) => RespawnKeepsLives(config, w, id);
    }
  }

  lemma DestroyKeepsLives(config: Config, w: World)
    requires AllLive(config, w)
    ensures AllLive(config, Destroy(w))
  {
    hide Lives;
  }

  lemma LoginKeepsLives(config: Config, w: World, client: ClientId, sequence: Sequence)
    requires Sane(config) && AllLive(config, w)
    ensures AllLive(config, Login(config, w, client, sequence))
  {
    NewPlayerLives(config, w.time, client);
    hide Lives, NewPlayer, Spawn;
  }

  /** Time only moves the latest possible respawn further away. */
  lemma AdvanceKeepsLives(config: Config, w: World)
    requires AllLive(config, w)
    ensures AllLive(config, Advance(config, w))
  {
    var next := Advance(config, w);
    forall id | id in next.entities
      ensures Lives(config, next.time, next.entities[id])
    {
      assert Lives(config, w.time, w.entities[id]);
      hide InMap, SpeedOk;
    }
  }

  lemma {:induction false} ExecKeepsLives(config: Config, order: Order, w: World, ops: seq<Op>, n: nat)
    requires Sane(config) && Shaped(config, w) && AllLive(config, w) && n <= |ops|
    ensures AllLive(config, Exec(config, order, w, ops, n))
    ensures Exec(config, order, w, ops, n).time == w.time
  {
    if n > 0 {
      ExecKeepsLives(config, order, w, ops, n - 1);
      ExecKeepsShape(config, order, w, ops, n - 1);
      hide Shaped, Do, AllLive, Sane;
      DoKeepsLives(config, order, Exec(config, order, w, ops, n - 1), ops[n - 1]);
    }
  }
}
