/** Building a snapshot from one simulation and applying it to another, and replaying
    inputs on top (GameLogic/src/Simulation.cpp, GameLogic/src/Map.cpp,
    Client/src/ClientRuntime.cpp). */
module Replicas {
  import opened Basics
  import opened Replication
  import opened Events
  import opened Motion
  import opened Simulation

  // --- building ---

  ghost predicate Chunked(m: MapConfig) {
    m.tileSize * m.chunkTiles > 0
  }

  /** The chunk of a position. */
  function Chunk(m: MapConfig, x: int, y: int): (int, int)
    requires Chunked(m)
  {
    var size := m.tileSize * m.chunkTiles;
    (TruncDiv(Clamp(TruncDiv(x, FIXED_ONE), 0, m.widthTiles * m.tileSize - 1), size),
     TruncDiv(Clamp(TruncDiv(y, FIXED_ONE), 0, m.heightTiles * m.tileSize - 1), size))
  }

  predicate Near(m: MapConfig, a: (int, int), b: (int, int)) {
    Abs(a.0 - b.0) <= m.interestRadius && Abs(a.1 - b.1) <= m.interestRadius
  }

  predicate OwnedBy(e: Entity, client: ClientId) {
    e.owner == Some(client)
  }

  /** Without an entity of its own an observer sees everything. */
  predicate Visible(config: Config, w: World, observer: ClientId, id: EntityId)
    requires Chunked(config.rules.map_) && id in w.entities
  {
    var m := config.rules.map_;
    OwnedBy(w.entities[id], observer)
    || observer !in w.playerByClient || w.playerByClient[observer] !in w.entities
    || (var self := w.entities[w.playerByClient[observer]].body;
        var other := w.entities[id].body;
        Near(m, Chunk(m, self.x, self.y), Chunk(m, other.x, other.y)))
  }

  function PriorityFor(observer: ClientId, e: Entity): Priority {
    if e.projectile.Some? || OwnedBy(e, observer) || e.Warming() then High else Medium
  }

  function CombatOf(id: EntityId, e: Entity): Option<CombatState> {
    if e.player.Some? then
      var p := e.player.value;
      var weapon := if e.weapon.Some? then e.weapon.value else Weapon(NoWeapon, false, 0, 0);
      Some(CombatState(id, p.health, p.maxHealth, weapon.weaponType, weapon.warming, weapon.completesAt,
                       p.defeated, p.respawnAt, false, 0))
    else if e.projectile.Some? then
      Some(CombatState(id, 100, 100, e.projectile.value.source, false, 0, false, 0, true, e.projectile.value.owner))
    else None
  }

  function StateOf(observer: ClientId, id: EntityId, e: Entity): EntityState {
    var aim := if e.aim.Some? then e.aim.value else Aim(1000, 0);
    EntityState(
      MovementState(id, e.body.x, e.body.y, e.body.vx, e.body.vy, aim.x, aim.y),
      CombatOf(id, e),
      ReplicaState(id, if e.owner.Some? then e.owner.value else 0,
                   if e.player.None? && e.projectile.Some? then ProjectileKind else PlayerKind,
                   PriorityFor(observer, e)))
  }

  function VisibleStates(config: Config, w: World, observer: ClientId, walk: seq<EntityId>): seq<EntityState>
    requires Chunked(config.rules.map_)
  {
    if walk == [] then []
    else
      var last := walk[|walk| - 1];
      VisibleStates(config, w, observer, walk[..|walk| - 1])
      + (if last in w.entities && Visible(config, w, observer, last) then [StateOf(observer, last, w.entities[last])] else [])
  }

  function BuildSnapshot(config: Config, order: Order, w: World, observer: ClientId, id: SnapshotId, baseline: SnapshotId): Snapshot
    requires Chunked(config.rules.map_)
  {
    var walk := order(w.tick, 4 + w.nextId + observer, w.entities.Keys);
    Snapshot(id, baseline, Full, w.tick, w.time,
             if observer in w.lastAccepted then w.lastAccepted[observer] else 0,
             VisibleStates(config, w, observer, walk))
  }

  /** A snapshot shows each visible entity once and nothing else. */
  lemma {:induction false} VisibleStatesFacts(config: Config, w: World, observer: ClientId, walk: seq<EntityId>)
    requires Chunked(config.rules.map_) && Distinct(walk)
    ensures var states := VisibleStates(config, w, observer, walk);
            && (forall k :: 0 <= k < |states| ==>
                  var id := states[k].Id();
                  id in walk && id in w.entities && Visible(config, w, observer, id) && states[k] == StateOf(observer, id, w.entities[id]))
            && DistinctIds(states)
            && (forall id :: id in walk && id in w.entities && Visible(config, w, observer, id) ==>
                  StateOf(observer, id, w.entities[id]) in states)
  {
    hide Visible;
    if walk != [] {
      VisibleStatesFacts(config, w, observer, walk[..|walk| - 1]);
      assert walk == walk[..|walk| - 1] + [walk[|walk| - 1]];
    }
  }

  // --- applying ---

  const BLANK := Entity(Body(0, 0, 0, 0), None, None, None, None, None, None, false)

  function OwnedLocally(state: EntityState, local: ClientId): bool {
    state.replica.owner == local && state.replica.kind == PlayerKind
  }

  function SyncedPlayer(old_: Option<Player>, state: EntityState): Player {
    var p := (if old_.Some? then old_.value else Player(0, 100, 100, false, 0)).(client := state.replica.owner);
    match state.combat
    case None => p
    case Some(c) => p.(health := c.health, maxHealth := c.maxHealth, defeated := c.defeated, respawnAt := c.respawnAt)
  }

  function SyncedWeapon(old_: Option<Weapon>, state: EntityState): Weapon {
    var weapon := if old_.Some? then old_.value else Weapon(Bow, false, 0, 0);
    match state.combat
    case None => weapon
    case Some(c) => weapon.(weaponType := c.weaponType, warming := c.weaponWarming, completesAt := c.weaponWarmupCompletesAt)
  }

  function SyncedProjectile(config: Config, serverTime: Time, state: EntityState): Projectile {
    var source := if state.combat.Some? then state.combat.value.weaponType else NoWeapon;
    var definition := FindWeapon(config.weapons, source);
    Projectile(if state.combat.Some? then state.combat.value.projectileOwner else 0,
               serverTime, serverTime + (if definition.Some? then definition.value.lifetime else 0), source)
  }

  /** An entity brought into line with one replicated state. */
  function Synced(config: Config, e: Entity, local: ClientId, serverTime: Time, state: EntityState): Entity {
    var m := state.movement;
    var moved := e.(body := Body(m.x, m.y, m.vx, m.vy), aim := Some(Aim(m.aimX, m.aimY)),
                    owner := Some(state.replica.owner), predicted := OwnedLocally(state, local));
    if state.replica.kind == PlayerKind
    then moved.(player := Some(SyncedPlayer(e.player, state)), weapon := Some(SyncedWeapon(e.weapon, state)))
    else moved.(projectile := Some(SyncedProjectile(config, serverTime, state)))
  }

  function SyncEvents(e: Option<Entity>, next: Entity, local: ClientId, state: EntityState): seq<DomainEvent> {
    var m := state.movement;
    match e
    case None => [EnteredInterest(m.entityId, local)]
    case Some(e) =>
      var away := e.body.x != m.x || e.body.y != m.y;
      (if OwnedLocally(state, local) && e.predicted && away
       then [PredictionCorrected(m.entityId, e.body.x, e.body.y, m.x, m.y)] else [])
      + (if away && next.player.Some? then [PlayerMoved(m.entityId, e.body.x, e.body.y, m.x, m.y)] else [])
  }

  function ApplyState(config: Config, w: World, local: ClientId, serverTime: Time, state: EntityState): World {
    var id := state.movement.entityId;
    var known := if id in w.entities then Some(w.entities[id]) else None;
    var next := Synced(config, if known.Some? then known.value else BLANK, local, serverTime, state);
    var changed := w.Change(id, next, SyncEvents(known, next, local, state));
    if state.replica.kind == PlayerKind && state.replica.owner != 0
    then changed.(playerByClient := w.playerByClient[state.replica.owner := id])
    else changed
  }

  function ApplyStates(config: Config, w: World, local: ClientId, serverTime: Time, states: seq<EntityState>, n: nat): World
    requires n <= |states|
  {
    if n == 0 then w
    else ApplyState(config, ApplyStates(config, w, local, serverTime, states, n - 1), local, serverTime, states[n - 1])
  }

  function Seen(states: seq<EntityState>): set<EntityId> {
    set k | 0 <= k < |states| :: states[k].movement.entityId
  }

  /** Everything the snapshot does not mention, except what the local client owns. */
  function Leaving(w: World, local: ClientId, seen: set<EntityId>): set<EntityId> {
    set id | id in w.entities && id !in seen && !OwnedBy(w.entities[id], local)
  }

  function Leave(w: World, local: ClientId, id: EntityId): World {
    if id !in w.entities then w
    else
      w.(playerByClient := if w.entities[id].player.Some?
                           then w.playerByClient - {w.entities[id].player.value.client}
                           else w.playerByClient,
         events := w.events + [LeftInterest(id, local)],
         entities := w.entities - {id})
  }

  function LeaveAll(w: World, local: ClientId, walk: seq<EntityId>, n: nat): World
    requires n <= |walk|
  {
    if n == 0 then w else Leave(LeaveAll(w, local, walk, n - 1), local, walk[n - 1])
  }

  function LeaveOrder(order: Order, w: World, local: ClientId, snapshot: Snapshot): seq<EntityId> {
    order(snapshot.snapshotId, local, Leaving(w, local, Seen(snapshot.entities)))
  }

  function ApplySnapshot(config: Config, order: Order, w: World, snapshot: Snapshot, local: ClientId): World {
    var applied := ApplyStates(config, w, local, snapshot.serverTime, snapshot.entities, |snapshot.entities|);
    var walk := LeaveOrder(order, applied, local, snapshot);
    var left := LeaveAll(applied, local, walk, |walk|);
    left.(events := left.events + [SnapshotApplied(snapshot.snapshotId, snapshot.baselineId, snapshot.ackedInput)])
  }

  // --- replaying ---

  /** One input applied and integrated at once, its intent dropped. */
  function ReplayOne(config: Config, w: World, input: Input): World {
    if input.client in w.playerByClient && w.playerByClient[input.client] in w.entities then
      var id := w.playerByClient[input.client];
      var stepped := Integrate(config, ApplyTo(config, w, id, input.frame), id);
      stepped.(entities := stepped.entities[id := WithoutIntent(stepped.entities[id])])
    else w
  }

  function Replay(config: Config, w: World, inputs: seq<Input>, n: nat): World
    requires n <= |inputs|
  {
    if n == 0 then w else ReplayOne(config, Replay(config, w, inputs, n - 1), inputs[n - 1])
  }

  function AcknowledgeThrough(inputs: seq<Input>, sequence: Sequence): seq<Input> {
    if inputs == [] then []
    else
      AcknowledgeThrough(inputs[..|inputs| - 1], sequence)
      + (if inputs[|inputs| - 1].sequence <= sequence then [] else [inputs[|inputs| - 1]])
  }

  /** What the client runtime does with a snapshot. */
  function Reconcile(config: Config, order: Order, w: World, history: seq<Input>, snapshot: Snapshot, local: ClientId): World {
    var unacked := AcknowledgeThrough(history, snapshot.ackedInput);
    Replay(config, ApplySnapshot(config, order, w, snapshot, local), unacked, |unacked|)
  }

  // --- what applying does ---

  /** States of one snapshot agree on which entity they are about and name it once. */
  ghost predicate WellNamed(states: seq<EntityState>) {
    forall i, j :: 0 <= i < j < |states| ==> states[i].movement.entityId != states[j].movement.entityId
  }

  /** What the first n states of a snapshot have done to the entities. */
  ghost predicate AppliedUpTo(config: Config, w: World, local: ClientId, serverTime: Time, states: seq<EntityState>, n: nat, next: World)
    requires n <= |states|
  {
    && next.entities.Keys == w.entities.Keys + Seen(states[..n])
    && (forall k :: 0 <= k < n ==> IsSynced(config, w, local, serverTime, states[k], next))
    && (forall id :: id in w.entities && id !in Seen(states[..n]) ==> id in next.entities && next.entities[id] == w.entities[id])
    && SameClock(w, next)
  }

  ghost predicate IsSynced(config: Config, w: World, local: ClientId, serverTime: Time, state: EntityState, next: World) {
    var id := state.movement.entityId;
    && id in next.entities
    && next.entities[id] == Synced(config, if id in w.entities then w.entities[id] else BLANK, local, serverTime, state)
  }

  ghost predicate SameClock(w: World, next: World) {
    && next.tick == w.tick && next.time == w.time && next.nextId == w.nextId
    && next.pending == w.pending && next.lastAccepted == w.lastAccepted && next.requests == w.requests
  }

  lemma ApplyStateFacts(config: Config, w: World, local: ClientId, serverTime: Time, state: EntityState)
    ensures var next := ApplyState(config, w, local, serverTime, state);
            var id := state.movement.entityId;
            && next.entities == w.entities[id := Synced(config, if id in w.entities then w.entities[id] else BLANK, local, serverTime, state)]
            && SameClock(w, next)
  {
  }

  lemma SeenGrows(states: seq<EntityState>, n: nat)
    requires 0 < n <= |states|
    ensures Seen(states[..n]) == Seen(states[..n - 1]) + {states[n - 1].movement.entityId}
  {
  }

  lemma AppliesOneMore(config: Config, w: World, local: ClientId, serverTime: Time, states: seq<EntityState>, n: nat, before: World)
    requires 0 < n <= |states| && WellNamed(states) && AppliedUpTo(config, w, local, serverTime, states, n - 1, before)
    ensures AppliedUpTo(config, w, local, serverTime, states, n, ApplyState(config, before, local, serverTime, states[n - 1]))
  {
    var id := states[n - 1].movement.entityId;
    var next := ApplyState(config, before, local, serverTime, states[n - 1]);
    ApplyStateFacts(config, before, local, serverTime, states[n - 1]);
    SeenGrows(states, n);
    assert id !in Seen(states[..n - 1]);
    hide Synced, ApplyState, Seen;
    forall k | 0 <= k < n
      ensures IsSynced(config, w, local, serverTime, states[k], next)
    {
      if k < n - 1 {
        assert IsSynced(config, w, local, serverTime, states[k], before);
      }
    }
  }

  lemma {:induction false} AppliedEntities(config: Config, w: World, local: ClientId, serverTime: Time, states: seq<EntityState>, n: nat)
    requires WellNamed(states) && n <= |states|
    ensures AppliedUpTo(config, w, local, serverTime, states, n, ApplyStates(config, w, local, serverTime, states, n))
  {
    if n > 0 {
      AppliedEntities(config, w, local, serverTime, states, n - 1);
      hide AppliedUpTo, ApplyState;
      AppliesOneMore(config, w, local, serverTime, states, n, ApplyStates(config, w, local, serverTime, states, n - 1));
    } else {
      assert Seen(states[..0]) == {};
    }
  }

  lemma {:induction false} LeftEntities(w: World, local: ClientId, walk: seq<EntityId>, n: nat)
    requires n <= |walk|
    ensures var next := LeaveAll(w, local, walk, n);
            && (forall id :: id in next.entities <==> id in w.entities && id !in walk[..n])
            && (forall id :: id in next.entities ==> next.entities[id] == w.entities[id])
            && SameClock(w, next)
  {
    if n > 0 {
      LeftEntities(w, local, walk, n - 1);
      assert walk[..n] == walk[..n - 1] + [walk[n - 1]];
    }
  }

  // --- the entities after a snapshot ---

  /** Exactly which entities are there after a snapshot, and what they are. */
  ghost predicate InLine(config: Config, w: World, snapshot: Snapshot, local: ClientId, next: World) {
    && (forall id :: id in next.entities <==>
          id in Seen(snapshot.entities) || (id in w.entities && OwnedBy(w.entities[id], local)))
    && (forall k :: 0 <= k < |snapshot.entities| ==> IsSynced(config, w, local, snapshot.serverTime, snapshot.entities[k], next))
    && (forall id :: id in next.entities && id !in Seen(snapshot.entities) ==> next.entities[id] == w.entities[id])
    && SameClock(w, next)
  }

  /** Between applying all states and the end only the leaving entities go. */
  ghost predicate OnlyLeft(applied: World, next: World, leaving: set<EntityId>) {
    && (forall id :: id in next.entities <==> id in applied.entities && id !in leaving)
    && (forall id :: id in next.entities ==> next.entities[id] == applied.entities[id])
    && SameClock(applied, next)
  }

  lemma LeavingLeaves(config: Config, order: Order, w: World, snapshot: Snapshot, local: ClientId)
    requires ValidOrder(order)
    ensures var applied := ApplyStates(config, w, local, snapshot.serverTime, snapshot.entities, |snapshot.entities|);
            OnlyLeft(applied, ApplySnapshot(config, order, w, snapshot, local), Leaving(applied, local, Seen(snapshot.entities)))
  {
    var applied := ApplyStates(config, w, local, snapshot.serverTime, snapshot.entities, |snapshot.entities|);
    var walk := LeaveOrder(order, applied, local, snapshot);
    var leaving := Leaving(applied, local, Seen(snapshot.entities));
    assert Enumerates(walk, leaving);
    LeftEntities(applied, local, walk, |walk|);
    assert walk[..|walk|] == walk;
    hide ApplyStates, LeaveAll, LeaveOrder, Leaving, Seen;
  }

  lemma InLineKeys(config: Config, w: World, snapshot: Snapshot, local: ClientId, applied: World, next: World)
    requires var states := snapshot.entities; AppliedUpTo(config, w, local, snapshot.serverTime, states, |states|, applied)
    requires OnlyLeft(applied, next, Leaving(applied, local, Seen(snapshot.entities)))
    ensures forall id :: id in next.entities <==>
              id in Seen(snapshot.entities) || (id in w.entities && OwnedBy(w.entities[id], local))
    ensures forall id :: id in next.entities && id !in Seen(snapshot.entities) ==> next.entities[id] == w.entities[id]
  {
    assert snapshot.entities[..|snapshot.entities|] == snapshot.entities;
    hide Synced, Seen, IsSynced;
    forall id
      ensures id in next.entities <==> id in Seen(snapshot.entities) || (id in w.entities && OwnedBy(w.entities[id], local))
      ensures id in next.entities && id !in Seen(snapshot.entities) ==> next.entities[id] == w.entities[id]
    {
      assert id in applied.entities <==> id in w.entities || id in Seen(snapshot.entities);
    }
  }

  lemma InLineStates(config: Config, w: World, snapshot: Snapshot, local: ClientId, applied: World, next: World)
    requires var states := snapshot.entities; AppliedUpTo(config, w, local, snapshot.serverTime, states, |states|, applied)
    requires OnlyLeft(applied, next, Leaving(applied, local, Seen(snapshot.entities)))
    ensures forall k :: 0 <= k < |snapshot.entities| ==> IsSynced(config, w, local, snapshot.serverTime, snapshot.entities[k], next)
  {
    hide Synced, Seen;
    var states := snapshot.entities;
    forall k | 0 <= k < |states|
      ensures IsSynced(config, w, local, snapshot.serverTime, states[k], next)
    {
      assert IsSynced(config, w, local, snapshot.serverTime, states[k], applied);
      InSeen(states, k);
    }
  }

  lemma SnapshotPutsInLine(config: Config, order: Order, w: World, snapshot: Snapshot, local: ClientId)
    requires WellNamed(snapshot.entities) && ValidOrder(order)
    ensures InLine(config, w, snapshot, local, ApplySnapshot(config, order, w, snapshot, local))
  {
    var states := snapshot.entities;
    var applied := ApplyStates(config, w, local, snapshot.serverTime, states, |states|);
    var next := ApplySnapshot(config, order, w, snapshot, local);
    hide Synced, ApplyStates, Seen, Leaving, ApplySnapshot, IsSynced;
    AppliedEntities(config, w, local, snapshot.serverTime, states, |states|);
    LeavingLeaves(config, order, w, snapshot, local);
    InLineKeys(config, w, snapshot, local, applied, next);
    InLineStates(config, w, snapshot, local, applied, next);
    assert SameClock(w, next);
  }

  lemma InSeen(states: seq<EntityState>, k: nat)
    requires k < |states|
    ensures states[k].movement.entityId in Seen(states)
  {
  }

  /** Snapshots as servers build them: each entity once, players with their combat state. */
  ghost predicate Complete(states: seq<EntityState>) {
    WellNamed(states) && forall k :: 0 <= k < |states| && states[k].replica.kind == PlayerKind ==> states[k].combat.Some?
  }

  datatype Shown = Shown(
    body: Body, aim: Option<Aim>, owner: Option<ClientId>, player: Option<Player>,
    weapon: (WeaponType, bool, Time), projectile: Option<Projectile>)

  /** The movement, health, weapon and projectile that an entity of a kind shows. */
  function ShownAs(kind: EntityKind, e: Entity): Shown {
    if kind == PlayerKind then
      Shown(e.body, e.aim, e.owner, e.player,
            if e.weapon.Some? then (e.weapon.value.weaponType, e.weapon.value.warming, e.weapon.value.completesAt) else (NoWeapon, false, 0),
            None)
    else Shown(e.body, e.aim, e.owner, None, (NoWeapon, false, 0), e.projectile)
  }

  lemma SyncedShowsTheSame(config: Config, a: Entity, b: Entity, local: ClientId, serverTime: Time, state: EntityState)
    requires state.replica.kind == PlayerKind ==> state.combat.Some?
    ensures ShownAs(state.replica.kind, Synced(config, a, local, serverTime, state))
         == ShownAs(state.replica.kind, Synced(config, b, local, serverTime, state))
  {
  }

  lemma SyncedOwner(config: Config, e: Entity, local: ClientId, serverTime: Time, state: EntityState)
    ensures Synced(config, e, local, serverTime, state).owner == Some(state.replica.owner)
  {
  }

  function Foreign(w: World, local: ClientId): set<EntityId> {
    set id | id in w.entities && !OwnedBy(w.entities[id], local)
  }

  ghost predicate ShowsTheSame(a: World, b: World, state: EntityState) {
    var id := state.movement.entityId;
    && id in a.entities && id in b.entities
    && ShownAs(state.replica.kind, a.entities[id]) == ShownAs(state.replica.kind, b.entities[id])
  }

  /** A foreign entity after a snapshot is one the snapshot shows as foreign. */
  lemma ForeignAfter(config: Config, w: World, snapshot: Snapshot, local: ClientId, next: World, id: EntityId)
    requires InLine(config, w, snapshot, local, next)
    ensures id in Foreign(next, local) <==>
            exists k: nat :: k < |snapshot.entities| && snapshot.entities[k].movement.entityId == id && snapshot.entities[k].replica.owner != local
  {
    var states := snapshot.entities;
    hide Synced;
    forall k: nat | k < |states|
      ensures states[k].movement.entityId in next.entities
      ensures next.entities[states[k].movement.entityId].owner == Some(states[k].replica.owner)
    {
      assert IsSynced(config, w, local, snapshot.serverTime, states[k], next);
      var i := states[k].movement.entityId;
      SyncedOwner(config, if i in w.entities then w.entities[i] else BLANK, local, snapshot.serverTime, states[k]);
    }
    if id in Foreign(next, local) {
      assert id in Seen(states);
      var k: nat :| k < |states| && states[k].movement.entityId == id;
    }
  }

  /** Two clients that apply the same snapshot, whatever they went through before, end with
      the same foreign entities and show every entity in it the same way. */
  lemma ApplicationForgetsHistory(config: Config, order: Order, other: Order, a: World, b: World, snapshot: Snapshot, local: ClientId)
    requires Complete(snapshot.entities) && ValidOrder(order) && ValidOrder(other)
    ensures var left, right := ApplySnapshot(config, order, a, snapshot, local), ApplySnapshot(config, other, b, snapshot, local);
            && Foreign(left, local) == Foreign(right, local)
            && (forall k :: 0 <= k < |snapshot.entities| ==> ShowsTheSame(left, right, snapshot.entities[k]))
  {
    SnapshotPutsInLine(config, order, a, snapshot, local);
    SnapshotPutsInLine(config, other, b, snapshot, local);
    var left, right := ApplySnapshot(config, order, a, snapshot, local), ApplySnapshot(config, other, b, snapshot, local);
    hide ApplySnapshot, Synced, ShownAs;
    forall id
      ensures id in Foreign(left, local) <==> id in Foreign(right, local)
    {
      ForeignAfter(config, a, snapshot, local, left, id);
      ForeignAfter(config, b, snapshot, local, right, id);
    }
    forall k | 0 <= k < |snapshot.entities|
      ensures ShowsTheSame(left, right, snapshot.entities[k])
    {
      var state := snapshot.entities[k];
      var id := state.movement.entityId;
      assert IsSynced(config, a, local, snapshot.serverTime, state, left);
      assert IsSynced(config, b, local, snapshot.serverTime, state, right);
      SyncedShowsTheSame(config, if id in a.entities then a.entities[id] else BLANK, if id in b.entities then b.entities[id] else BLANK,
                         local, snapshot.serverTime, state);
    }
  }

  lemma SyncedTwice(config: Config, e: Entity, local: ClientId, serverTime: Time, state: EntityState)
    ensures var once := Synced(config, e, local, serverTime, state);
            Synced(config, once, local, serverTime, state) == once
  {
  }

  lemma SecondTimeIsSame(config: Config, w: World, once: World, twice: World, local: ClientId, snapshot: Snapshot, id: EntityId)
    requires InLine(config, w, snapshot, local, once) && InLine(config, once, snapshot, local, twice)
    ensures id in once.entities <==> id in twice.entities
    ensures id in once.entities ==> once.entities[id] == twice.entities[id]
  {
    hide Synced;
    var states := snapshot.entities;
    if id in Seen(states) {
      var k :| 0 <= k < |states| && states[k].movement.entityId == id;
      assert IsSynced(config, w, local, snapshot.serverTime, states[k], once);
      assert IsSynced(config, once, local, snapshot.serverTime, states[k], twice);
      SyncedTwice(config, if id in w.entities then w.entities[id] else BLANK, local, snapshot.serverTime, states[k]);
    }
  }

  /** Applying a snapshot a second time leaves every entity exactly as it is. */
  lemma ApplicationIsIdempotent(config: Config, order: Order, w: World, snapshot: Snapshot, local: ClientId)
    requires WellNamed(snapshot.entities) && ValidOrder(order)
    ensures var once := ApplySnapshot(config, order, w, snapshot, local);
            ApplySnapshot(config, order, once, snapshot, local).entities == once.entities
  {
    var once := ApplySnapshot(config, order, w, snapshot, local);
    var twice := ApplySnapshot(config, order, once, snapshot, local);
    SnapshotPutsInLine(config, order, w, snapshot, local);
    SnapshotPutsInLine(config, order, once, snapshot, local);
    hide ApplySnapshot, InLine;
    forall id
      ensures id in once.entities <==> id in twice.entities
      ensures id in once.entities ==> once.entities[id] == twice.entities[id]
    {
      SecondTimeIsSame(config, w, once, twice, local, snapshot, id);
    }
  }
}
