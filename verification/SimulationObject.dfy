/** The simulation as the object it is, its registry, indices and queues updated in place
    (GameLogic/src/Simulation.cpp, SimulationMovement.cpp, SimulationCombat.cpp). Every
    method is proved against Simulation.dfy and Replicas.dfy. */
module SimulationObject {
  import opened Basics
  import opened Replication
  import opened Events
  import opened Motion
  import opened Simulation
  import Replicas

  class GameSimulation {
    const config: Config
    const order: Order
    var tick: nat
    var time: Time
    var nextId: EntityId
    var registry: map<EntityId, Entity>
    var playerByClient: map<ClientId, EntityId>
    var lastAccepted: map<ClientId, Sequence>
    var pending: seq<Input>
    var events: seq<DomainEvent>

    /** The world with the lists a running pass keeps on the side. */
    function During(requests: seq<Request>, doomed: seq<EntityId>): World
      reads this
    {
      World(tick, time, nextId, registry, playerByClient, lastAccepted, pending, events, requests, doomed)
    }

    function Between(): World
      reads this
    {
      During([], [])
    }

    constructor (config: Config, order: Order)
      ensures this.config == config && this.order == order
      ensures Between() == NEW_WORLD
    {
      this.config, this.order := config, order;
      tick, time, nextId := 0, 0, 1;
      registry, playerByClient, lastAccepted := map[], map[], map[];
      pending, events := [], [];
    }

    // --- commands ---

    method SubmitLogin(client: ClientId, sequence: Sequence) returns (accepted: bool)
      modifies this
      ensures Between() == Login(config, old(Between()), client, sequence)
      ensures accepted <==> client in playerByClient
    {
      if client in playerByClient {
        return true;
      }
      if |playerByClient| >= config.maxPlayers {
        return false;
      }
      lastAccepted := lastAccepted[client := sequence];
      var spawn := Spawn(config, client);
      CreatePlayer(client, spawn.0, spawn.1);
      return true;
    }

    method CreatePlayer(client: ClientId, x: int, y: int)
      requires (x, y) == Spawn(config, client)
      modifies this
      ensures Between() == old(Between()).Change(old(nextId), NewPlayer(config, client), [PlayerSpawned(old(nextId), client, x, y)])
                           .(nextId := old(nextId) + 1, playerByClient := old(playerByClient)[client := old(nextId)])
    {
      var id := nextId;
      nextId := nextId + 1;
      registry := registry[id := NewPlayer(config, client)];
      playerByClient := playerByClient[client := id];
      events := events + [PlayerSpawned(id, client, x, y)];
    }

    method SubmitInput(packet: Input) returns (accepted: bool)
      modifies this
      ensures Between() == Submit(old(Between()), packet)
      ensures accepted <==> Admissible(old(Between()), packet)
    {
      if packet.client !in playerByClient {
        return false;
      }
      if packet.client in lastAccepted && packet.sequence <= lastAccepted[packet.client] {
        return false;
      }
      lastAccepted := lastAccepted[packet.client := packet.sequence];
      pending := pending + [packet];
      return true;
    }

    // --- movement ---

    method ApplyInputToEntity(id: EntityId, frame: InputFrame)
      requires id in registry
      modifies this`registry, this`events
      ensures Between() == ApplyTo(config, old(Between()), id, frame)
    {
      var e := registry[id];
      if e.player.Some? && e.player.value.defeated {
        return;
      }
      e := e.(intent := Some(frame));
      if frame.aimX != 0 || frame.aimY != 0 {
        e := e.(aim := Some(Aim(frame.aimX, frame.aimY)));
      } else if e.aim.None? {
        e := e.(aim := Some(Aim(1000, 0)));
      }
      assert e == Intending(old(registry)[id], frame);
      registry := registry[id := e];
      assert WarmupStart(config, e, frame) == WarmupStart(config, old(registry)[id], frame);
      if frame.fire && e.weapon.Some? {
        StartWarmup(id, frame);
      }
    }

    /** The firing part of an input, after the entity has taken its intent and aim. */
    method StartWarmup(id: EntityId, frame: InputFrame)
      requires id in registry && registry[id].weapon.Some? && frame.fire
      modifies this`registry, this`events
      ensures var e := old(registry)[id];
              Between() == (match WarmupStart(config, e, frame)
                            case None => old(Between())
                            case Some(definition) =>
                              old(Between()).Change(
                                id,
                                e.(weapon := Some(e.weapon.value.(warming := true, startedAt := time, completesAt := time + definition.warmup))),
                                [WarmupStarted(id, time, time + definition.warmup, e.weapon.value.weaponType)]))
    {
      var e := registry[id];
      var weapon := e.weapon.value;
      var definition := FindWeapon(config.weapons, weapon.weaponType);
      if definition.None? || weapon.weaponType == NoWeapon {
        return;
      }
      if !weapon.warming {
        weapon := weapon.(warming := true, startedAt := time, completesAt := time + definition.value.warmup);
        registry := registry[id := e.(weapon := Some(weapon))];
        events := events + [WarmupStarted(id, weapon.startedAt, weapon.completesAt, weapon.weaponType)];
      }
    }

    method IntegrateMovement(id: EntityId)
      modifies this`registry, this`events
      ensures Between() == Integrate(config, old(Between()), id)
    {
      if id !in registry {
        return;
      }
      var e := registry[id];
      if e.player.Some? && e.player.value.defeated {
        registry := registry[id := e.(body := e.body.(vx := 0, vy := 0))];
        return;
      }
      var steered := Steered(config.rules, e.body, e.intent);
      var body := ClampToMap(config.rules.map_, Drifted(config.rules.tickMs, steered));
      registry := registry[id := e.(body := body)];
      if (e.body.x != body.x || e.body.y != body.y) && e.player.Some? {
        events := events + [PlayerMoved(id, e.body.x, e.body.y, body.x, body.y)];
      }
    }

    method ProcessInputs()
      modifies this
      ensures Between() == Simulation.ProcessInputs(config, order, old(Between()))
    {
      ghost var start := Between();
      ghost var ops := InputOps(start);
      hide ApplyTo, Do, Integrate;
      var i := 0;
      while i < |pending|
        invariant i <= |pending| && pending == start.pending
        invariant Between() == Exec(config, order, start, ops, i)
      {
        var input := pending[i];
        DoInputUnfold(config, order, Between(), input);
        if input.client in playerByClient && playerByClient[input.client] in registry {
          ApplyInputToEntity(playerByClient[input.client], input.frame);
        }
        i := i + 1;
      }
      DoPlainUnfold(config, order, Between());
      pending := [];
      IntegrateAll();
    }

    method IntegrateAll()
      modifies this`registry, this`events
      ensures Between() == Pass(config, order, old(Between()), MoveOps(order, old(Between())))
    {
      ghost var start := Between();
      ghost var ops := MoveOps(order, start);
      hide Do, Integrate;
      var walk := order(tick, 0, Players(Between()));
      var i := 0;
      while i < |walk|
        invariant i <= |walk|
        invariant Between() == Exec(config, order, start, ops, i)
      {
        DoEntityUnfold(config, order, Between(), walk[i]);
        IntegrateMovement(walk[i]);
        i := i + 1;
      }
      DoPlainUnfold(config, order, Between());
      registry := map id | id in registry :: WithoutIntent(registry[id]);
    }

    // --- combat ---

    /** One entity of the warm-up pass; a completed warm-up may add a request. */
    method WarmUp(id: EntityId, requests: seq<Request>) returns (more: seq<Request>)
      modifies this`registry, this`events
      ensures During(more, []) == Warm(config, old(During(requests, [])), id)
    {
      more := requests;
      if id !in registry || registry[id].weapon.None? || registry[id].aim.None? {
        return;
      }
      var e := registry[id];
      var idle := e.(weapon := Some(e.weapon.value.(warming := false)));
      if e.player.Some? && e.player.value.defeated {
        registry := registry[id := idle];
        return;
      }
      if !e.weapon.value.warming || time < e.weapon.value.completesAt {
        assert registry[id := e] == registry;
        return;
      }
      registry := registry[id := idle];
      if config.mode == ServerAuthoritative {
        var definition := FindWeapon(config.weapons, e.weapon.value.weaponType);
        if definition.None? {
          return;
        }
        events := events + [BowFired(id, time, e.weapon.value.weaponType)];
        if definition.value.spawns {
          more := more + [Request(id, e.body.x, e.body.y, e.aim.value, definition.value)];
        }
      }
    }

    method CreateProjectile(r: Request, rest: seq<Request>)
      modifies this`nextId, this`registry, this`events
      ensures During(rest, []) == Launch(old(During([r] + rest, [])))
    {
      var id := nextId;
      nextId := nextId + 1;
      registry := registry[id := Arrow(time, r)];
      events := events + [ProjectileSpawned(id, r.owner, r.x, r.y, r.weapon.weaponType)];
    }

    method ProcessWeaponWarmups()
      modifies this
      ensures Between() == Simulation.ProcessWeaponWarmups(config, order, old(Between()))
    {
      ghost var start := Between();
      hide Do, Warm, Launch;
      var walk := order(tick, 1, Armed(Between()));
      var requests := [];
      var i := 0;
      while i < |walk|
        invariant i <= |walk|
        invariant During(requests, []) == Exec(config, order, start, WarmOps(order, start), i)
      {
        DoEntityUnfold(config, order, During(requests, []), walk[i]);
        requests := WarmUp(walk[i], requests);
        i := i + 1;
      }
      CreateProjectiles(requests);
    }

    method CreateProjectiles(requests: seq<Request>)
      modifies this`nextId, this`registry, this`events
      ensures Between() == Pass(config, order, old(During(requests, [])), LaunchOps(old(During(requests, []))))
    {
      ghost var start := During(requests, []);
      hide Do, Launch;
      var i := 0;
      while i < |requests|
        invariant i <= |requests|
        invariant During(requests[i..], []) == Exec(config, order, start, LaunchOps(start), i)
      {
        DoPlainUnfold(config, order, During(requests[i..], []));
        assert requests[i..] == [requests[i]] + requests[i + 1..];
        CreateProjectile(requests[i], requests[i + 1..]);
        i := i + 1;
      }
    }

    /** The first exposed player on the walk, hit and hurt. */
    method HitFirst(projectile: EntityId, source: Projectile, body: Body, doomed: seq<EntityId>) returns (more: seq<EntityId>)
      modifies this`registry, this`events
      ensures During([], more)
           == (match FirstHit(old(During([], doomed)), source.owner, body, order(tick, 4 + projectile, Players(old(During([], doomed)))))
               case None => old(During([], doomed))
               case Some(target) => Strike(config, old(During([], doomed)), projectile, source, target))
    {
      ghost var start := During([], doomed);
      var walk := order(tick, 4 + projectile, Players(During([], doomed)));
      more := doomed;
      hide CloseEnough;
      var i := 0;
      while i < |walk|
        invariant i <= |walk| && During([], doomed) == start && more == doomed
        invariant FirstHit(start, source.owner, body, walk) == FirstHit(start, source.owner, body, walk[i..])
      {
        var id := walk[i];
        assert walk[i..][1..] == walk[i + 1..];
        if id != source.owner && id in registry && registry[id].player.Some? && !registry[id].player.value.defeated
           && CloseEnough(body, registry[id].body)
        {
          more := HurtPlayer(projectile, source, id, doomed);
          return;
        }
        i := i + 1;
      }
    }

    method HurtPlayer(projectile: EntityId, source: Projectile, target: EntityId, doomed: seq<EntityId>) returns (more: seq<EntityId>)
      requires target in registry && registry[target].player.Some?
      modifies this`registry, this`events
      ensures During([], more) == Strike(config, old(During([], doomed)), projectile, source, target)
    {
      var e := registry[target];
      var player := e.player.value;
      var damage := DamageOf(config, source.source);
      player := player.(health := Max(0, player.health - damage));
      var news := [HitConfirmed(source.owner, target, projectile, time), PlayerDamaged(target, source.owner, damage, player.health)];
      if player.health <= 0 {
        player := player.(defeated := true, respawnAt := time + config.respawnDelay);
        news := news + [PlayerDied(target, source.owner, player.respawnAt)];
      }
      registry := registry[target := e.(player := Some(player))];
      events := events + news;
      more := doomed + [projectile];
    }

    method FlyProjectile(id: EntityId, doomed: seq<EntityId>) returns (more: seq<EntityId>)
      modifies this`registry, this`events
      ensures During([], more) == Fly(config, order, old(During([], doomed)), id)
    {
      more := doomed;
      if id !in registry || registry[id].projectile.None? {
        return;
      }
      hide FirstHit, Strike, Drifted, CloseEnough;
      var e := registry[id];
      var body := Drifted(config.rules.tickMs, e.body);
      registry := registry[id := e.(body := body)];
      assert events + [] == events;
      if time >= e.projectile.value.expiresAt || OffMap(config, body) {
        more := more + [id];
        return;
      }
      more := HitFirst(id, e.projectile.value, body, doomed);
    }

    method ProcessProjectiles()
      modifies this
      ensures Between() == Simulation.ProcessProjectiles(config, order, old(Between()))
    {
      ghost var start := Between();
      hide Do, Fly;
      var walk := order(tick, 2, Projectiles(Between()));
      var doomed := [];
      var i := 0;
      while i < |walk|
        invariant i <= |walk|
        invariant During([], doomed) == Exec(config, order, start, FlyOps(order, start), i)
      {
        DoEntityUnfold(config, order, During([], doomed), walk[i]);
        doomed := FlyProjectile(walk[i], doomed);
        i := i + 1;
      }
      DestroyAll(doomed);
    }

    method DestroyAll(doomed: seq<EntityId>)
      modifies this`registry
      ensures Between() == Pass(config, order, old(During([], doomed)), DestroyOps(old(During([], doomed))))
    {
      ghost var start := During([], doomed);
      hide Do;
      var i := 0;
      while i < |doomed|
        invariant i <= |doomed|
        invariant During([], doomed[i..]) == Exec(config, order, start, DestroyOps(start), i)
      {
        DoPlainUnfold(config, order, During([], doomed[i..]));
        assert doomed[i..][1..] == doomed[i + 1..];
        registry := registry - {doomed[i]};
        i := i + 1;
      }
    }

    method RespawnPlayer(id: EntityId)
      modifies this`registry, this`events
      ensures Between() == Respawn(config, old(Between()), id)
    {
      if id !in registry || registry[id].player.None? {
        return;
      }
      var e := registry[id];
      var player := e.player.value;
      if !player.defeated || time < player.respawnAt {
        return;
      }
      var spawn := Spawn(config, player.client);
      e := e.(player := Some(player.(health := player.maxHealth, defeated := false, respawnAt := 0)),
              body := Body(spawn.0, spawn.1, 0, 0));
      if e.weapon.Some? {
        e := e.(weapon := Some(e.weapon.value.(warming := false, startedAt := 0, completesAt := 0)));
      }
      registry := registry[id := e];
      events := events + [PlayerRespawned(id, spawn.0, spawn.1)];
    }

    method ProcessRespawns()
      modifies this
      ensures Between() == Simulation.ProcessRespawns(config, order, old(Between()))
    {
      ghost var start := Between();
      hide Do, Respawn;
      var walk := order(tick, 3, Players(Between()));
      var i := 0;
      while i < |walk|
        invariant i <= |walk|
        invariant Between() == Exec(config, order, start, RespawnOps(order, start), i)
      {
        DoEntityUnfold(config, order, Between(), walk[i]);
        RespawnPlayer(walk[i]);
        i := i + 1;
      }
    }

    method TickFixed()
      modifies this
      ensures Between() == Simulation.TickFixed(config, order, old(Between()))
    {
      hide Simulation.ProcessInputs, Simulation.ProcessWeaponWarmups, Simulation.ProcessProjectiles, Simulation.ProcessRespawns;
      tick := tick + 1;
      time := time + config.rules.tickMs;
      assert Between() == Advance(config, old(Between()));
      ProcessInputs();
      ProcessWeaponWarmups();
      ProcessProjectiles();
      ProcessRespawns();
    }

    method DrainEvents() returns (drained: seq<DomainEvent>)
      modifies this`events
      ensures drained == old(events) && Between() == old(Between()).(events := [])
    {
      drained := events;
      events := [];
    }

    // --- replicas ---

    method ReplayInput(input: Input)
      modifies this`registry, this`events
      ensures Between() == Replicas.ReplayOne(config, old(Between()), input)
    {
      if input.client !in playerByClient || playerByClient[input.client] !in registry {
        return;
      }
      hide ApplyTo, Integrate;
      var id := playerByClient[input.client];
      ghost var start := Between();
      ApplyInputToEntity(id, input.frame);
      KeepsPresent(config, start, id, input.frame);
      IntegrateMovement(id);
      registry := registry[id := WithoutIntent(registry[id])];
    }

    method ReplayLocalInputsForPrediction(inputs: seq<Input>)
      modifies this`registry, this`events
      ensures Between() == Replicas.Replay(config, old(Between()), inputs, |inputs|)
    {
      hide Replicas.ReplayOne;
      var i := 0;
      while i < |inputs|
        invariant i <= |inputs|
        invariant Between() == Replicas.Replay(config, old(Between()), inputs, i)
      {
        ReplayInput(inputs[i]);
        i := i + 1;
      }
    }

    method BuildSnapshot(observer: ClientId, id: SnapshotId, baseline: SnapshotId) returns (snapshot: Snapshot)
      requires Replicas.Chunked(config.rules.map_)
      ensures snapshot == Replicas.BuildSnapshot(config, order, Between(), observer, id, baseline)
    {
      hide Replicas.Visible, Replicas.StateOf;
      var walk := order(tick, 4 + nextId + observer, registry.Keys);
      var entities := [];
      var i := 0;
      while i < |walk|
        invariant i <= |walk|
        invariant entities == Replicas.VisibleStates(config, Between(), observer, walk[..i])
      {
        assert walk[..i + 1][..i] == walk[..i];
        if walk[i] in registry && Replicas.Visible(config, Between(), observer, walk[i]) {
          entities := entities + [Replicas.StateOf(observer, walk[i], registry[walk[i]])];
        }
        i := i + 1;
      }
      assert walk[..|walk|] == walk;
      snapshot := Snapshot(id, baseline, Full, tick, time,
                           if observer in lastAccepted then lastAccepted[observer] else 0, entities);
    }

    method ApplyEntityState(state: EntityState, serverTime: Time, local: ClientId)
      modifies this`registry, this`events, this`playerByClient
      ensures Between() == Replicas.ApplyState(config, old(Between()), local, serverTime, state)
    {
      hide Replicas.Synced;
      var id := state.movement.entityId;
      var known := if id in registry then Some(registry[id]) else None;
      var next := Replicas.Synced(config, if known.Some? then known.value else Replicas.BLANK, local, serverTime, state);
      registry := registry[id := next];
      if known.None? {
        events := events + [EnteredInterest(id, local)];
      } else {
        var m, at := state.movement, known.value.body;
        var news := [];
        if Replicas.OwnedLocally(state, local) && known.value.predicted && (at.x != m.x || at.y != m.y) {
          news := news + [PredictionCorrected(id, at.x, at.y, m.x, m.y)];
        }
        if (at.x != m.x || at.y != m.y) && next.player.Some? {
          news := news + [PlayerMoved(id, at.x, at.y, m.x, m.y)];
        }
        events := events + news;
      }
      if state.replica.kind == PlayerKind && state.replica.owner != 0 {
        playerByClient := playerByClient[state.replica.owner := id];
      }
    }

    method ApplySnapshot(snapshot: Snapshot, local: ClientId)
      modifies this`registry, this`events, this`playerByClient
      ensures Between() == Replicas.ApplySnapshot(config, order, old(Between()), snapshot, local)
    {
      hide Replicas.ApplyState, Replicas.Leave;
      ghost var start := Between();
      var states := snapshot.entities;
      var i := 0;
      while i < |states|
        invariant i <= |states|
        invariant Between() == Replicas.ApplyStates(config, start, local, snapshot.serverTime, states, i)
      {
        ApplyEntityState(states[i], snapshot.serverTime, local);
        i := i + 1;
      }
      ghost var applied := Between();
      var leaving := Replicas.Leaving(Between(), local, Replicas.Seen(states));
      var walk := order(snapshot.snapshotId, local, leaving);
      var j := 0;
      while j < |walk|
        invariant j <= |walk|
        invariant Between() == Replicas.LeaveAll(applied, local, walk, j)
      {
        LeaveInterest(walk[j], local);
        j := j + 1;
      }
      events := events + [SnapshotApplied(snapshot.snapshotId, snapshot.baselineId, snapshot.ackedInput)];
    }

    method LeaveInterest(id: EntityId, local: ClientId)
      modifies this`registry, this`events, this`playerByClient
      ensures Between() == Replicas.Leave(old(Between()), local, id)
    {
      if id !in registry {
        return;
      }
      if registry[id].player.Some? {
        playerByClient := playerByClient - {registry[id].player.value.client};
      }
      events := events + [LeftInterest(id, local)];
      registry := registry - {id};
    }
  }

  lemma DoInputUnfold(config: Config, order: Order, w: World, input: Input)
    ensures Do(config, order, w, DoInput(input))
         == if input.client in w.playerByClient && w.playerByClient[input.client] in w.entities
            then ApplyTo(config, w, w.playerByClient[input.client], input.frame) else w
  {
  }

  lemma DoPlainUnfold(config: Config, order: Order, w: World)
    ensures Do(config, order, w, DoClearPending) == w.(pending := [])
    ensures Do(config, order, w, DoClearIntents) == ClearIntents(w)
    ensures Do(config, order, w, DoLaunch) == Launch(w)
    ensures Do(config, order, w, DoDestroy) == Destroy(w)
  {
  }

  lemma DoEntityUnfold(config: Config, order: Order, w: World, id: EntityId)
    ensures Do(config, order, w, DoIntegrate(id)) == Integrate(config, w, id)
    ensures Do(config, order, w, DoWarm(id)) == Warm(config, w, id)
    ensures Do(config, order, w, DoFly(id)) == Fly(config, order, w, id)
    ensures Do(config, order, w, DoRespawn(id)) == Respawn(config, w, id)
  {
  }

  lemma KeepsPresent(config: Config, w: World, id: EntityId, frame: InputFrame)
    requires id in w.entities
    ensures id in ApplyTo(config, w, id, frame).entities
    ensures id in Integrate(config, ApplyTo(config, w, id, frame), id).entities
  {
  }
}
