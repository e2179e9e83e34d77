/** From one end to the other: what a client's world is after a snapshot of a server's world,
    said of the entities of the two worlds themselves. */
module Mirrors {
  import opened Basics
  import opened Replication
  import opened Events
  import opened Motion
  import opened Simulation
  import opened Structure
  import opened LifeCycle
  import opened Flights
  import opened Shots
  import opened Replicas
  import Game

  // --- what is in sight ---

  /** Position x lies in the i-th chunk. */
  ghost predicate InChunk(m: MapConfig, x: int, i: int) {
    var size := m.tileSize * m.chunkTiles * 1000;
    i * size <= x < i * size + size
  }

  /** An axis of a map with `size` thousandths to a chunk. */
  lemma AxisChunk(size: int, tiles: int, x: int, i: int)
    requires size > 0 && 0 <= x < tiles * 1000
    ensures TruncDiv(Clamp(TruncDiv(x, 1000), 0, tiles - 1), size) == i <==> i * (size * 1000) <= x < i * (size * 1000) + size * 1000
  {
    var px := x / 1000;
    assert 0 <= px <= tiles - 1;
    var q := px / size;
    assert px == q * size + px % size;
    Thousandfold(size, px, x, q);
    if i < q {
      Spread(i + 1, q, size * 1000);
    } else if i > q {
      Spread(q + 1, i, size * 1000);
    }
  }

  lemma Thousandfold(size: int, px: int, x: int, q: int)
    requires size > 0 && 1000 * px <= x < 1000 * px + 1000 && q * size <= px < q * size + size
    ensures q * (size * 1000) <= x < q * (size * 1000) + size * 1000
  {
    assert q * (size * 1000) == q * size * 1000;
  }

  lemma Spread(a: int, b: int, size: int)
    requires a <= b && size > 0
    ensures a * size <= b * size
  {
  }

  lemma ChunkIs(m: MapConfig, x: int, y: int, i: int, j: int)
    requires Chunked(m) && InMap(m, x, y)
    ensures Chunk(m, x, y) == (i, j) <==> InChunk(m, x, i) && InChunk(m, y, j)
  {
    assert m.Width() == (m.widthTiles * m.tileSize) * 1000;
    assert m.Height() == (m.heightTiles * m.tileSize) * 1000;
    AxisChunk(m.tileSize * m.chunkTiles, m.widthTiles * m.tileSize, x, i);
    AxisChunk(m.tileSize * m.chunkTiles, m.heightTiles * m.tileSize, y, j);
  }

  /** An observer's own player, if it has one. */
  ghost predicate SelfIs(w: World, observer: ClientId, self: EntityId) {
    observer in w.playerByClient && w.playerByClient[observer] == self && self in w.entities
  }

  /** An observer sees its own, what is within so many chunks of its player on both axes,
      and everything if it has no player. */
  lemma SightIsChunks(config: Config, w: World, observer: ClientId, id: EntityId, self: EntityId, i: int, j: int, k: int, l: int)
    requires Chunked(config.rules.map_) && id in w.entities && w.entities[id].owner != Some(observer)
    requires SelfIs(w, observer, self)
    requires var m, a, b := config.rules.map_, w.entities[self].body, w.entities[id].body;
             && InMap(m, a.x, a.y) && InMap(m, b.x, b.y)
             && InChunk(m, a.x, i) && InChunk(m, a.y, j) && InChunk(m, b.x, k) && InChunk(m, b.y, l)
    ensures Visible(config, w, observer, id)
            <==> Abs(i - k) <= config.rules.map_.interestRadius && Abs(j - l) <= config.rules.map_.interestRadius
  {
    ChunkIs(config.rules.map_, w.entities[self].body.x, w.entities[self].body.y, i, j);
    ChunkIs(config.rules.map_, w.entities[id].body.x, w.entities[id].body.y, k, l);
    hide Chunk, InChunk, MapConfig.Width, MapConfig.Height;
  }

  lemma OneWayApart(size: int, a: int, b: int, i: int, k: int, radius: int)
    requires size > 0 && i * size <= a < i * size + size && k * size <= b < k * size + size
    ensures i - k > radius ==> a - b > radius * size
    ensures a - b >= radius * size + size ==> i - k > radius
  {
    var d := i - k;
    assert d * size == i * size - k * size;
    if d > radius {
      Spread(radius + 1, d, size);
      assert (radius + 1) * size == radius * size + size;
    } else {
      Spread(d, radius, size);
    }
  }

  /** In plain distance: what is no further than the radius on both axes is seen, what is a
      whole chunk further on one of them is not. */
  lemma SightIsNear(config: Config, w: World, observer: ClientId, id: EntityId, self: EntityId)
    requires Chunked(config.rules.map_) && id in w.entities && w.entities[id].owner != Some(observer)
    requires SelfIs(w, observer, self)
    requires var m, a, b := config.rules.map_, w.entities[self].body, w.entities[id].body;
             InMap(m, a.x, a.y) && InMap(m, b.x, b.y)
    ensures var m, a, b := config.rules.map_, w.entities[self].body, w.entities[id].body;
            var size := m.tileSize * m.chunkTiles * 1000;
            && (Abs(a.x - b.x) <= m.interestRadius * size && Abs(a.y - b.y) <= m.interestRadius * size ==>
                  Visible(config, w, observer, id))
            && (Abs(a.x - b.x) >= m.interestRadius * size + size || Abs(a.y - b.y) >= m.interestRadius * size + size ==>
                  !Visible(config, w, observer, id))
  {
    var m, a, b := config.rules.map_, w.entities[self].body, w.entities[id].body;
    var size := m.tileSize * m.chunkTiles * 1000;
    var (i, j) := Chunk(m, a.x, a.y);
    var (k, l) := Chunk(m, b.x, b.y);
    ChunkIs(m, a.x, a.y, i, j);
    ChunkIs(m, b.x, b.y, k, l);
    SightIsChunks(config, w, observer, id, self, i, j, k, l);
    hide Chunk, Visible, MapConfig.Width, MapConfig.Height;
    OneWayApart(size, a.x, b.x, i, k, m.interestRadius);
    OneWayApart(size, b.x, a.x, k, i, m.interestRadius);
    OneWayApart(size, a.y, b.y, j, l, m.interestRadius);
    OneWayApart(size, b.y, a.y, l, j, m.interestRadius);
  }

  lemma OthersAreSeen(config: Config, w: World, observer: ClientId, id: EntityId)
    requires Chunked(config.rules.map_) && id in w.entities
    requires w.entities[id].owner == Some(observer) || forall self :: !SelfIs(w, observer, self)
    ensures Visible(config, w, observer, id)
  {
    if w.entities[id].owner != Some(observer) && observer in w.playerByClient {
      assert !SelfIs(w, observer, w.playerByClient[observer]);
    }
    hide Chunk;
  }

  // --- what a client makes of it ---

  /** An arrow seen now lasts as long as its kind does by the client's own definitions. */
  ghost predicate Lasts(config: Config, source: WeaponType, time: Time, expiresAt: Time) {
    && (forall k: nat :: Defines(config.weapons, source, k) ==> expiresAt == time + config.weapons[k].lifetime)
    && ((forall k: nat :: !Defines(config.weapons, source, k)) ==> expiresAt == time)
  }

  lemma FoundLasts(config: Config, source: WeaponType, time: Time)
    ensures var found := FindWeapon(config.weapons, source);
            Lasts(config, source, time, time + (if found.Some? then found.value.lifetime else 0))
  {
    var m := FoundIsFirst(config.weapons, source);
    forall k: nat | Defines(config.weapons, source, k)
      ensures FindWeapon(config.weapons, source) == Some(config.weapons[k])
    {
      OneDefinition(config.weapons, source, k);
    }
    hide FindWeapon;
  }

  /** A client's entity shows a server's: body and aim as they are there; a player with its
      whole condition and its weapon; an arrow with its owner and kind. What a snapshot
      does not carry is as the client had it, or new. */
  ghost predicate Mirrors(config: Config, time: Time, local: ClientId, e: Entity, had: Entity, f: Entity) {
    && f.body == e.body && f.intent == had.intent
    && (e.player.Some? ==>
          && f.aim == e.aim && f.owner == e.owner && f.player == e.player
          && f.predicted == (e.owner == Some(local))
          && e.weapon.Some? && f.weapon.Some?
          && f.weapon.value.weaponType == e.weapon.value.weaponType && f.weapon.value.warming == e.weapon.value.warming
          && f.weapon.value.completesAt == e.weapon.value.completesAt
          && f.weapon.value.startedAt == (if had.weapon.Some? then had.weapon.value.startedAt else 0)
          && f.projectile == had.projectile)
    && (e.projectile.Some? ==>
          && f.aim == Some(Aim(1000, 0)) && f.owner == Some(0) && !f.predicted
          && f.projectile.Some?
          && f.projectile.value.owner == e.projectile.value.owner && f.projectile.value.source == e.projectile.value.source
          && f.projectile.value.spawnedAt == time && Lasts(config, e.projectile.value.source, time, f.projectile.value.expiresAt)
          && f.player == had.player && f.weapon == had.weapon)
  }

  /** What a client holds of an entity before the snapshot: its own, or a blank one. */
  function Had(v: World, id: EntityId): Entity {
    if id in v.entities then v.entities[id] else Entity(Body(0, 0, 0, 0), None, None, None, None, None, None, false)
  }

  lemma SyncedMirrors(server: Config, config: Config, w: World, time: Time, local: ClientId, id: EntityId, had: Entity)
    requires Shaped(server, w) && id in w.entities
    ensures Mirrors(config, time, local, w.entities[id], had, Synced(config, had, local, time, StateOf(local, id, w.entities[id])))
  {
    EntityOkUnfold(server, w, id);
    var e := w.entities[id];
    if e.projectile.Some? {
      FoundLasts(config, e.projectile.value.source, time);
    }
    hide Shaped, FindWeapon, Lasts;
  }

  /** The states of a snapshot are taken from this world: each entity at most once. */
  ghost predicate TakenFrom(w: World, local: ClientId, s: Snapshot) {
    && s.serverTime == w.time && DistinctIds(s.entities)
    && forall k :: 0 <= k < |s.entities| ==>
         s.entities[k].Id() in w.entities && s.entities[k] == StateOf(local, s.entities[k].Id(), w.entities[s.entities[k].Id()])
  }

  lemma StateNamesItself(local: ClientId, id: EntityId, e: Entity)
    ensures StateOf(local, id, e).Id() == id && StateOf(local, id, e).movement.entityId == id
  {
  }

  lemma TakenIsWellNamed(w: World, local: ClientId, s: Snapshot)
    requires TakenFrom(w, local, s)
    ensures WellNamed(s.entities)
    ensures forall k :: 0 <= k < |s.entities| ==> s.entities[k].movement.entityId == s.entities[k].Id()
  {
    forall k | 0 <= k < |s.entities|
      ensures s.entities[k].movement.entityId == s.entities[k].Id()
    {
      StateNamesItself(local, s.entities[k].Id(), w.entities[s.entities[k].Id()]);
    }
    hide StateOf;
  }

  ghost predicate Names(s: Snapshot, id: EntityId) {
    exists k :: 0 <= k < |s.entities| && s.entities[k].Id() == id
  }

  /** After a snapshot, in full: a named entity mirrors the server's; one not named is there
      only if the client owns it, and then unchanged. */
  ghost predicate MirrorsAll(config: Config, w: World, v: World, next: World, local: ClientId, s: Snapshot, id: EntityId) {
    if Names(s, id)
    then id in w.entities && id in next.entities && Mirrors(config, w.time, local, w.entities[id], Had(v, id), next.entities[id])
    else
      && (id in next.entities <==> id in v.entities && v.entities[id].owner == Some(local))
      && (id in next.entities ==> next.entities[id] == v.entities[id])
  }

  /** Whatever a client has been through: after a snapshot of states taken from a server's
      world, whether all of it or what a planner has left, its entities mirror that world. */
  lemma TakenIsMirrored(server: Config, config: Config, order: Order, w: World, v: World, local: ClientId, s: Snapshot, id: EntityId)
    requires Shaped(server, w) && ValidOrder(order) && TakenFrom(w, local, s)
    ensures MirrorsAll(config, w, v, ApplySnapshot(config, order, v, s, local), local, s, id)
  {
    TakenIsWellNamed(w, local, s);
    SnapshotPutsInLine(config, order, v, s, local);
    var next := ApplySnapshot(config, order, v, s, local);
    if Names(s, id) {
      var k :| 0 <= k < |s.entities| && s.entities[k].Id() == id;
      assert IsSynced(config, v, local, w.time, s.entities[k], next);
      SyncedMirrors(server, config, w, w.time, local, id, Had(v, id));
      assert Had(v, id) == if id in v.entities then v.entities[id] else BLANK;
    } else {
      assert id !in Seen(s.entities);
    }
    hide Shaped, ApplySnapshot, Synced, StateOf, Mirrors;
  }

  lemma BuiltStates(config: Config, order: Order, w: World, observer: ClientId, sid: SnapshotId, baseline: SnapshotId)
    requires ValidOrder(order) && Chunked(config.rules.map_)
    ensures var s := BuildSnapshot(config, order, w, observer, sid, baseline);
            && TakenFrom(w, observer, s)
            && (forall k :: 0 <= k < |s.entities| ==>
                  s.entities[k].Id() in w.entities && Visible(config, w, observer, s.entities[k].Id()))
            && (forall id :: id in w.entities && Visible(config, w, observer, id) ==> StateOf(observer, id, w.entities[id]) in s.entities)
  {
    var walk := order(w.tick, 4 + w.nextId + observer, w.entities.Keys);
    assert Enumerates(walk, w.entities.Keys);
    VisibleStatesFacts(config, w, observer, walk);
    var s := BuildSnapshot(config, order, w, observer, sid, baseline);
    assert s.entities == VisibleStates(config, w, observer, walk) && s.serverTime == w.time;
    assert forall id :: id in walk <==> id in w.entities;
    hide VisibleStates, Visible, StateOf, BuildSnapshot, Distinct, Enumerates, ValidOrder;
  }

  /** A server's snapshot is taken from its world and names exactly what is in sight. */
  lemma BuiltIsTaken(config: Config, order: Order, w: World, observer: ClientId, sid: SnapshotId, baseline: SnapshotId)
    requires ValidOrder(order) && Chunked(config.rules.map_)
    ensures var s := BuildSnapshot(config, order, w, observer, sid, baseline);
            && TakenFrom(w, observer, s)
            && (forall id :: Names(s, id) <==> id in w.entities && Visible(config, w, observer, id))
            && s.snapshotId == sid && s.baselineId == baseline && s.serverTick == w.tick && s.deliveryKind == Full
            && s.ackedInput == (if observer in w.lastAccepted then w.lastAccepted[observer] else 0)
  {
    BuiltStates(config, order, w, observer, sid, baseline);
    var s := BuildSnapshot(config, order, w, observer, sid, baseline);
    hide VisibleStates, Visible, TakenFrom, ValidOrder;
    forall id | id in w.entities && Visible(config, w, observer, id)
      ensures Names(s, id)
    {
      StateNamesItself(observer, id, w.entities[id]);
    }
    hide StateOf;
  }

  /** In every run of the server and for any client: after applying the server's snapshot
      the client shows every entity in its sight as the server has it, and nothing else but
      what it owns. */
  lemma SnapshotMirrorsServer(config: Config, order: Order, actions: seq<Game.Action>, client: Config, walk: Order, v: World, local: ClientId, sid: SnapshotId, baseline: SnapshotId, id: EntityId)
    requires Sane(config) && ValidOrder(order) && ValidOrder(walk) && Chunked(config.rules.map_)
    ensures var w := Game.Run(config, order, actions).world;
            var next := ApplySnapshot(client, walk, v, BuildSnapshot(config, order, w, local, sid, baseline), local);
            if id in w.entities && Visible(config, w, local, id)
            then id in next.entities && Mirrors(client, w.time, local, w.entities[id], Had(v, id), next.entities[id])
            else
              && (id in next.entities <==> id in v.entities && v.entities[id].owner == Some(local))
              && (id in next.entities ==> next.entities[id] == v.entities[id])
  {
    Game.RunKeepsInv(config, order, actions);
    var w := Game.Run(config, order, actions).world;
    var s := BuildSnapshot(config, order, w, local, sid, baseline);
    assert Shaped(config, w);
    BuiltIsTaken(config, order, w, local, sid, baseline);
    TakenIsMirrored(config, client, walk, w, v, local, s, id);
    hide Game.Run, Game.Inv, Shaped, BuildSnapshot, ApplySnapshot, Visible, Mirrors, TakenFrom, Names;
  }

  /** What else a snapshot says: arrows, the observer's own and whoever is warming up have
      priority over the rest, and an arrow's combat state is marked as one. */
  lemma PrioritiesShown(server: Config, w: World, local: ClientId, s: Snapshot, k: nat)
    requires Shaped(server, w) && TakenFrom(w, local, s) && k < |s.entities|
    ensures var e := w.entities[s.entities[k].Id()];
            var r := s.entities[k].replica;
            && (r.priority == High <==> e.projectile.Some? || e.owner == Some(local) || (e.weapon.Some? && e.weapon.value.warming))
            && (r.priority != High ==> r.priority == Medium)
            && r.owner == (if e.player.Some? then e.player.value.client else 0)
            && r.kind == (if e.player.Some? then PlayerKind else ProjectileKind)
            && (e.projectile.Some? ==>
                  s.entities[k].combat == Some(CombatState(r.entityId, 100, 100, e.projectile.value.source, false, 0, false, 0,
                                                           true, e.projectile.value.owner)))
  {
    EntityOkUnfold(server, w, s.entities[k].Id());
    hide Shaped;
  }

  // --- what a client is told ---

  /** The events a snapshot puts in a client's queue, told by the entities before and after. */
  ghost predicate Reported(v: World, next: World, s: Snapshot, local: ClientId, event: DomainEvent) {
    match event
    case EnteredInterest(id, observer) => observer == local && id in Seen(s.entities) && id !in v.entities
    case LeftInterest(id, observer) => observer == local && id in v.entities && id !in next.entities
    case PlayerMoved(id, fromX, fromY, x, y) =>
      Shifted(v, next, s, id, fromX, fromY, x, y) && next.entities[id].player.Some?
    case PredictionCorrected(id, fromX, fromY, x, y) =>
      Shifted(v, next, s, id, fromX, fromY, x, y) && v.entities[id].predicted && next.entities[id].predicted
    case SnapshotApplied(a, b, c) => a == s.snapshotId && b == s.baselineId && c == s.ackedInput
    case _ => false
  }

  /** A known entity that the snapshot puts in another place. */
  ghost predicate Shifted(v: World, next: World, s: Snapshot, id: EntityId, fromX: int, fromY: int, x: int, y: int) {
    && id in Seen(s.entities) && id in v.entities && id in next.entities
    && v.entities[id].body.x == fromX && v.entities[id].body.y == fromY
    && next.entities[id].body.x == x && next.entities[id].body.y == y
    && (fromX != x || fromY != y)
  }

  function StateEvents(config: Config, v: World, local: ClientId, time: Time, state: EntityState): seq<DomainEvent> {
    var id := state.movement.entityId;
    SyncEvents(if id in v.entities then Some(v.entities[id]) else None, Synced(config, Had(v, id), local, time, state), local, state)
  }

  function StatesEvents(config: Config, v: World, local: ClientId, time: Time, states: seq<EntityState>, n: nat): seq<DomainEvent>
    requires n <= |states|
  {
    if n == 0 then [] else StatesEvents(config, v, local, time, states, n - 1) + StateEvents(config, v, local, time, states[n - 1])
  }

  lemma StateTells(config: Config, v: World, before: World, local: ClientId, time: Time, state: EntityState)
    requires var id := state.movement.entityId;
             (id in before.entities <==> id in v.entities) && (id in v.entities ==> before.entities[id] == v.entities[id])
    ensures ApplyState(config, before, local, time, state).events == before.events + StateEvents(config, v, local, time, state)
  {
    hide Synced, SyncEvents;
  }

  lemma {:induction false} StatesTell(config: Config, v: World, local: ClientId, time: Time, states: seq<EntityState>, n: nat)
    requires WellNamed(states) && n <= |states|
    ensures ApplyStates(config, v, local, time, states, n).events == v.events + StatesEvents(config, v, local, time, states, n)
  {
    hide Seen, WellNamed, ApplyState, StateEvents, IsSynced;
    if n > 0 {
      StatesTell(config, v, local, time, states, n - 1);
      AppliedEntities(config, v, local, time, states, n - 1);
      NotSeenBefore(states, n);
      var before := ApplyStates(config, v, local, time, states, n - 1);
      assert states[n - 1].movement.entityId in before.entities <==> states[n - 1].movement.entityId in v.entities;
      StateTells(config, v, before, local, time, states[n - 1]);
    }
  }

  lemma NotSeenBefore(states: seq<EntityState>, n: nat)
    requires WellNamed(states) && 0 < n <= |states|
    ensures states[n - 1].movement.entityId !in Seen(states[..n - 1])
  {
  }

  lemma LeaveTells(u: World, local: ClientId, id: EntityId)
    requires id in u.entities
    ensures Leave(u, local, id).events == u.events + [LeftInterest(id, local)]
  {
  }

  function LeaveEvents(local: ClientId, walk: seq<EntityId>, n: nat): seq<DomainEvent>
    requires n <= |walk|
  {
    if n == 0 then [] else LeaveEvents(local, walk, n - 1) + [LeftInterest(walk[n - 1], local)]
  }

  lemma {:induction false} LeavingTells(w: World, local: ClientId, walk: seq<EntityId>, n: nat)
    requires n <= |walk| && Distinct(walk) && forall k :: 0 <= k < |walk| ==> walk[k] in w.entities
    ensures LeaveAll(w, local, walk, n).events == w.events + LeaveEvents(local, walk, n)
  {
    hide Leave;
    if n > 0 {
      LeavingTells(w, local, walk, n - 1);
      LeftEntities(w, local, walk, n - 1);
      assert walk[n - 1] !in walk[..n - 1];
      hide Distinct, SameClock;
      LeaveTells(LeaveAll(w, local, walk, n - 1), local, walk[n - 1]);
    }
  }

  lemma {:induction false} InLeaveEvents(local: ClientId, walk: seq<EntityId>, n: nat, event: DomainEvent)
    requires n <= |walk|
    ensures event in LeaveEvents(local, walk, n) <==> event.LeftInterest? && event.observer == local && event.entityId in walk[..n]
  {
    if n > 0 {
      InLeaveEvents(local, walk, n - 1, event);
      assert walk[..n] == walk[..n - 1] + [walk[n - 1]];
    }
  }

  lemma StateIsReported(config: Config, v: World, next: World, s: Snapshot, local: ClientId, k: nat, event: DomainEvent)
    requires k < |s.entities| && IsSynced(config, v, local, s.serverTime, s.entities[k], next)
    ensures event in StateEvents(config, v, local, s.serverTime, s.entities[k]) <==>
              !event.LeftInterest? && !event.SnapshotApplied? && Reported(v, next, s, local, event)
              && SubjectIs(event, s.entities[k].movement.entityId)
  {
    var id := s.entities[k].movement.entityId;
    assert id in Seen(s.entities);
    assert Had(v, id) == if id in v.entities then v.entities[id] else BLANK;
    hide SyncedPlayer, SyncedWeapon, SyncedProjectile;
  }

  ghost predicate SubjectIs(event: DomainEvent, id: EntityId) {
    (event.EnteredInterest? || event.PlayerMoved? || event.PredictionCorrected?) && event.entityId == id
  }

  lemma {:induction false} InStatesEvents(config: Config, v: World, local: ClientId, time: Time, states: seq<EntityState>, n: nat, event: DomainEvent)
    requires n <= |states|
    ensures event in StatesEvents(config, v, local, time, states, n)
            <==> exists k :: 0 <= k < n && event in StateEvents(config, v, local, time, states[k])
  {
    hide StateEvents;
    if n > 0 {
      InStatesEvents(config, v, local, time, states, n - 1, event);
    }
  }

  lemma InThreeParts(before: seq<DomainEvent>, told: seq<DomainEvent>, gone: seq<DomainEvent>, last: DomainEvent, all: seq<DomainEvent>, event: DomainEvent)
    requires all == before + told + gone + [last]
    ensures before <= all && (event in all[|before|..] <==> event in told || event in gone || event == last)
  {
    assert all[|before|..] == told + gone + [last];
  }

  /** The new events of an application: those of its states, of those who leave, and its own. */
  lemma NewsAre(config: Config, order: Order, v: World, s: Snapshot, local: ClientId, event: DomainEvent)
    requires WellNamed(s.entities) && ValidOrder(order)
    ensures var next := ApplySnapshot(config, order, v, s, local);
            && v.events <= next.events
            && (event in next.events[|v.events|..] <==>
                  || event in StatesEvents(config, v, local, s.serverTime, s.entities, |s.entities|)
                  || (event.LeftInterest? && event.observer == local && event.entityId in v.entities && event.entityId !in next.entities)
                  || event == SnapshotApplied(s.snapshotId, s.baselineId, s.ackedInput))
  {
    var applied := ApplyStates(config, v, local, s.serverTime, s.entities, |s.entities|);
    var walk := LeaveOrder(order, applied, local, s);
    StatesTell(config, v, local, s.serverTime, s.entities, |s.entities|);
    LeaversAre(config, order, v, s, local);
    hide ApplyStates, LeaveOrder, StatesEvents, LeaveAll, Distinct, WellNamed, ValidOrder;
    LeavingTells(applied, local, walk, |walk|);
    InLeaveEvents(local, walk, |walk|, event);
    assert walk[..|walk|] == walk;
    hide LeaveEvents;
    var told := StatesEvents(config, v, local, s.serverTime, s.entities, |s.entities|);
    var last := SnapshotApplied(s.snapshotId, s.baselineId, s.ackedInput);
    var next := ApplySnapshot(config, order, v, s, local);
    assert next.events == v.events + told + LeaveEvents(local, walk, |walk|) + [last];
    hide ApplySnapshot;
    InThreeParts(v.events, told, LeaveEvents(local, walk, |walk|), last, next.events, event);
  }

  lemma LeaversAre(config: Config, order: Order, v: World, s: Snapshot, local: ClientId)
    requires WellNamed(s.entities) && ValidOrder(order)
    ensures var applied := ApplyStates(config, v, local, s.serverTime, s.entities, |s.entities|);
            var walk := LeaveOrder(order, applied, local, s);
            var next := ApplySnapshot(config, order, v, s, local);
            && Distinct(walk) && (forall k :: 0 <= k < |walk| ==> walk[k] in applied.entities)
            && (forall id :: id in walk <==> id in v.entities && id !in next.entities)
  {
    var applied := ApplyStates(config, v, local, s.serverTime, s.entities, |s.entities|);
    var walk := LeaveOrder(order, applied, local, s);
    var leaving := Leaving(applied, local, Seen(s.entities));
    assert Enumerates(walk, leaving);
    AppliedEntities(config, v, local, s.serverTime, s.entities, |s.entities|);
    SnapshotPutsInLine(config, order, v, s, local);
    assert s.entities[..|s.entities|] == s.entities;
    hide ApplyStates, ApplySnapshot, LeaveOrder, IsSynced, Seen;
    forall k | 0 <= k < |walk|
      ensures walk[k] in applied.entities
    {
      assert walk[k] in walk;
    }
  }

  /** A client is told exactly what a snapshot changes: who came into its interest and who
      left it, which players moved, where its own prediction was corrected, and last that
      the snapshot was applied. */
  lemma ReportsAreExact(config: Config, order: Order, v: World, s: Snapshot, local: ClientId, event: DomainEvent)
    requires WellNamed(s.entities) && ValidOrder(order)
    ensures var next := ApplySnapshot(config, order, v, s, local);
            && v.events <= next.events
            && (event in next.events[|v.events|..] <==> Reported(v, next, s, local, event))
  {
    var next := ApplySnapshot(config, order, v, s, local);
    var states := s.entities;
    NewsAre(config, order, v, s, local, event);
    SnapshotPutsInLine(config, order, v, s, local);
    InStatesEvents(config, v, local, s.serverTime, states, |states|, event);
    forall k: nat | k < |states|
      ensures event in StateEvents(config, v, local, s.serverTime, states[k]) <==>
                !event.LeftInterest? && !event.SnapshotApplied? && Reported(v, next, s, local, event)
                && SubjectIs(event, states[k].movement.entityId)
    {
      StateIsReported(config, v, next, s, local, k, event);
    }
    hide ApplySnapshot, StatesEvents, StateEvents, InLine, Shifted;
    if event.EnteredInterest? || event.PlayerMoved? || event.PredictionCorrected? {
      SeenSomewhere(v, next, s, local, event);
    }
  }

  lemma SeenSomewhere(v: World, next: World, s: Snapshot, local: ClientId, event: DomainEvent)
    requires event.EnteredInterest? || event.PlayerMoved? || event.PredictionCorrected?
    ensures Reported(v, next, s, local, event) ==> exists k :: 0 <= k < |s.entities| && SubjectIs(event, s.entities[k].movement.entityId)
  {
    if Reported(v, next, s, local, event) {
      assert event.entityId in Seen(s.entities);
      var k :| 0 <= k < |s.entities| && s.entities[k].movement.entityId == event.entityId;
    }
  }
}
