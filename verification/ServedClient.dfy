/** Clients of one server: what a run of the server shows them never turns a player into a
    projectile, so the prediction theorem needs no assumption about earlier snapshots. */
module ServedClient {
  import opened Basics
  import opened Replication
  import opened Events
  import opened Motion
  import opened Simulation
  import opened Structure
  import opened LifeCycle
  import J = Journal
  import H = Hits
  import Planner
  import opened Replicas
  import opened Stance
  import opened Game
  import opened Prediction
  import opened ClientRun

  // --- identities keep their kind over a server run ---

  ghost predicate SpawnsPlayer(journal: seq<DomainEvent>, k: nat, id: EntityId) {
    k < |journal| && journal[k].PlayerSpawned? && journal[k].entityId == id
  }

  lemma {:induction false} FoldedWasSpawned(maxHealth: int, journal: seq<DomainEvent>, id: EntityId) returns (k: nat)
    requires id in J.Fold(maxHealth, map[], journal)
    ensures SpawnsPlayer(journal, k, id)
  {
    var front, last := journal[..|journal| - 1], journal[|journal| - 1];
    if last.PlayerSpawned? && last.entityId == id {
      k := |journal| - 1;
    } else {
      k := FoldedWasSpawned(maxHealth, front, id);
    }
  }

  lemma PlayerWasSpawned(config: Config, g: Game, id: EntityId) returns (k: nat)
    requires Inv(config, g) && IsPlayer(g.world, id)
    ensures SpawnsPlayer(g.Journal(), k, id)
  {
    J.PlayerHasView(g.world, id);
    assert J.Tells(config, g.past, g.world);
    k := FoldedWasSpawned(config.maxHealth, g.Journal(), id);
  }

  lemma StepGrowsJournal(config: Config, order: Order, g: Game, action: Action)
    ensures g.Journal() <= Step(config, order, g, action).Journal()
  {
    if action.Tick? {
      var start := Advance(config, g.world);
      var ops := TickOps(config, order, g.world);
      TickIsOps(config, order, g.world);
      ExecGrows(config, order, start, ops, |ops|);
      hide TickFixed, TickOps, Exec;
      assert start.events == g.world.events;
    } else {
      hide NewPlayer, Spawn;
    }
  }

  lemma {:induction false} JournalGrows(config: Config, order: Order, served: seq<Action>, n: nat)
    requires n <= |served|
    ensures Run(config, order, served[..n]).Journal() <= Run(config, order, served).Journal()
    decreases |served|
  {
    if n == |served| {
      assert served[..n] == served;
    } else {
      var front := served[..|served| - 1];
      JournalGrows(config, order, front, n);
      assert front[..n] == served[..n];
      StepGrowsJournal(config, order, Run(config, order, front), served[|served| - 1]);
      hide Step;
    }
  }

  ghost predicate SpawnsArrow(journal: seq<DomainEvent>, k: nat, id: EntityId) {
    k < |journal| && journal[k].ProjectileSpawned? && journal[k].projectileId == id
  }

  lemma ArrowWasSpawned(config: Config, g: Game, id: EntityId) returns (k: nat)
    requires Inv(config, g) && id in Projectiles(g.world)
    ensures SpawnsArrow(g.Journal(), k, id)
  {
    assert H.Fair(g.past, g.world);
    var owner := g.world.entities[id].projectile.value.owner;
    assert H.ShotBy(g.Journal(), id, owner);
    hide Inv, H.Fair;
    k :| k < |g.Journal()| && g.Journal()[k].ProjectileSpawned? && g.Journal()[k].projectileId == id && g.Journal()[k].ownerId == owner;
  }

  /** One journal does not spend one id on a player and on a projectile. */
  lemma OneKindEach(journal: seq<DomainEvent>, nextId: EntityId, i: nat, j: nat, id: EntityId)
    requires H.IdsOnce(journal, nextId) && SpawnsPlayer(journal, i, id)
    ensures !SpawnsArrow(journal, j, id)
  {
  }

  lemma InvIdsOnce(config: Config, g: Game)
    requires Inv(config, g)
    ensures H.IdsOnce(g.Journal(), g.world.nextId)
  {
    assert H.Fair(g.past, g.world);
    hide Inv;
  }

  lemma KindsAgree(config: Config, early: Game, late: Game, all: Game, id: EntityId)
    requires Inv(config, early) && Inv(config, late) && Inv(config, all)
    requires early.Journal() <= all.Journal() && late.Journal() <= all.Journal()
    requires IsPlayer(early.world, id)
    ensures id !in Projectiles(late.world)
  {
    hide Inv, Projectiles, IsPlayer, H.IdsOnce;
    var i := PlayerWasSpawned(config, early, id);
    assert SpawnsPlayer(all.Journal(), i, id);
    InvIdsOnce(config, all);
    if id in Projectiles(late.world) {
      var j := ArrowWasSpawned(config, late, id);
      OneKindEach(all.Journal(), all.world.nextId, i, j, id);
    }
  }

  /** An id that is a player at any time of a server run is never a projectile in it. */
  lemma PlayersStayPlayers(config: Config, order: Order, served: seq<Action>, m: nat, n: nat, id: EntityId)
    requires Sane(config) && ValidOrder(order) && m <= |served| && n <= |served|
    requires IsPlayer(Run(config, order, served[..m]).world, id)
    ensures id !in Projectiles(Run(config, order, served[..n]).world)
  {
    hide *;
    RunKeepsInv(config, order, served[..m]);
    RunKeepsInv(config, order, served[..n]);
    RunKeepsInv(config, order, served);
    JournalGrows(config, order, served, m);
    JournalGrows(config, order, served, n);
    KindsAgree(config, Run(config, order, served[..m]), Run(config, order, served[..n]), Run(config, order, served), id);
  }

  /** The first id of a server is never a projectile: every projectile has an older owner. */
  lemma FirstIsNoProjectile(config: Config, w: World, id: EntityId)
    requires Shaped(config, w) && id in Projectiles(w)
    ensures id > 1
  {
    EntityOkUnfold(config, w, id);
    EntityOkUnfold(config, w, w.entities[id].projectile.value.owner);
  }

  // --- snapshots of one server run ---

  /** The entities of a snapshot that the host plans, under some settings and for some
      observer, from the simulation after the first n actions of the run. */
  ghost predicate PlannedAt(server: Config, order: Order, served: seq<Action>, n: nat, settings: Planner.Config, observer: ClientId, snapshot: Snapshot) {
    && n <= |served| && Chunked(server.rules.map_)
    && snapshot.entities == Planner.PlanOf(
         settings, observer, BuildSnapshot(server, order, Run(server, order, served[..n]).world, observer, 0, 0)).snapshot.entities
  }

  ghost predicate ServedBy(server: Config, order: Order, served: seq<Action>, snapshot: Snapshot) {
    exists n: nat, settings, observer: ClientId :: PlannedAt(server, order, served, n, settings, observer, snapshot)
  }

  /** Every state of a planned snapshot shows an entity of the world as it is. */
  lemma PlannedShows(server: Config, order: Order, w: World, settings: Planner.Config, observer: ClientId, entities: seq<EntityState>)
    requires Shaped(server, w) && ValidOrder(order) && Chunked(server.rules.map_)
    requires entities == Planner.PlanOf(settings, observer, BuildSnapshot(server, order, w, observer, 0, 0)).snapshot.entities
    ensures DistinctIds(entities) && (forall k :: 0 <= k < |entities| ==> Shows(w, observer, entities[k]))
  {
    var built := BuildSnapshot(server, order, w, observer, 0, 0);
    SnapshotShows(server, order, w, observer, 0, 0);
    hide BuildSnapshot, Visible, StateOf, Shows, Planner.Kept;
    Planner.PlanSelects(settings, observer, built.entities);
    forall k | 0 <= k < |entities|
      ensures Shows(w, observer, entities[k])
    {
      assert entities[k] in built.entities;
    }
  }

  lemma ServedIsWellNamed(server: Config, order: Order, served: seq<Action>, snapshot: Snapshot)
    requires Sane(server) && ValidOrder(order) && ServedBy(server, order, served, snapshot)
    ensures WellNamed(snapshot.entities)
  {
    var n: nat, settings, observer: ClientId :| PlannedAt(server, order, served, n, settings, observer, snapshot);
    RunKeepsInv(server, order, served[..n]);
    var g := Run(server, order, served[..n]);
    InvShaped(server, g);
    PlannedShows(server, order, g.world, settings, observer, snapshot.entities);
    hide Run, Inv, Shaped, StateOf, BuildSnapshot, Planner.PlanOf;
    forall k | 0 <= k < |snapshot.entities|
      ensures snapshot.entities[k].movement.entityId == snapshot.entities[k].Id()
    {
      assert Shows(g.world, observer, snapshot.entities[k]);
      StateOfFacts(server, g.world, observer, snapshot.entities[k].Id());
    }
  }

  /** A player at some time of the server's run. */
  ghost predicate WasPlayer(server: Config, order: Order, served: seq<Action>, id: EntityId) {
    exists n: nat :: n <= |served| && IsPlayer(Run(server, order, served[..n]).world, id)
  }

  /** All players a client knows are the server's, or its own first local one. */
  ghost predicate Known(server: Config, order: Order, served: seq<Action>, w: World) {
    forall id :: IsPlayer(w, id) ==> id == 1 || WasPlayer(server, order, served, id)
  }

  lemma StateOfKinds(observer: ClientId, id: EntityId, e: Entity)
    ensures StateOf(observer, id, e).replica.kind == ProjectileKind <==> e.player.None? && e.projectile.Some?
  {
  }

  lemma ServedKinds(server: Config, order: Order, served: seq<Action>, snapshot: Snapshot, k: nat)
    requires Sane(server) && ValidOrder(order) && ServedBy(server, order, served, snapshot) && k < |snapshot.entities|
    ensures var state := snapshot.entities[k];
            var id := state.movement.entityId;
            if state.replica.kind == ProjectileKind then id > 1 && !WasPlayer(server, order, served, id)
            else WasPlayer(server, order, served, id)
  {
    var n: nat, settings, observer: ClientId :| PlannedAt(server, order, served, n, settings, observer, snapshot);
    RunKeepsInv(server, order, served[..n]);
    var g := Run(server, order, served[..n]);
    InvShaped(server, g);
    PlannedShows(server, order, g.world, settings, observer, snapshot.entities);
    var state := snapshot.entities[k];
    assert Shows(g.world, observer, state);
    var id := state.Id();
    StateOfFacts(server, g.world, observer, id);
    StateOfKinds(observer, id, g.world.entities[id]);
    EntityOkUnfold(server, g.world, id);
    hide Run, Inv, Shaped, StateOf, BuildSnapshot, Planner.PlanOf;
    if state.replica.kind == ProjectileKind {
      FirstIsNoProjectile(server, g.world, id);
      assert id in Projectiles(g.world);
      forall m: nat | m <= |served|
        ensures !IsPlayer(Run(server, order, served[..m]).world, id)
      {
        if IsPlayer(Run(server, order, served[..m]).world, id) {
          PlayersStayPlayers(server, order, served, m, n, id);
        }
      }
    } else {
      assert IsPlayer(Run(server, order, served[..n]).world, id);
    }
  }

  lemma ServedKeepsKinds(server: Config, order: Order, served: seq<Action>, w: World, snapshot: Snapshot)
    requires Sane(server) && ValidOrder(order) && ServedBy(server, order, served, snapshot)
    requires Known(server, order, served, w)
    ensures KeepsKinds(w, snapshot.entities)
  {
    hide WasPlayer, ServedBy;
    forall k | 0 <= k < |snapshot.entities| && snapshot.entities[k].replica.kind == ProjectileKind
      ensures !IsPlayer(w, snapshot.entities[k].movement.entityId)
    {
      ServedKinds(server, order, served, snapshot, k);
    }
  }

  // --- what a client's own steps do to players ---

  /** No player comes, no id is spent, nothing waits to be launched. */
  ghost predicate Quiet(w: World, next: World) {
    && next.nextId == w.nextId && next.requests == w.requests
    && (forall id :: IsPlayer(next, id) ==> IsPlayer(w, id))
  }

  lemma ChangeIsQuiet(w: World, id: EntityId, e: Entity, news: seq<DomainEvent>)
    requires id in w.entities && (e.player.Some? ==> w.entities[id].player.Some?)
    ensures Quiet(w, w.Change(id, e, news))
  {
  }

  lemma ApplyToIsQuiet(config: Config, w: World, id: EntityId, frame: InputFrame)
    requires id in w.entities
    ensures Quiet(w, ApplyTo(config, w, id, frame))
  {
    var e := w.entities[id];
    assert Responding(config, w.time, e, frame).player == e.player;
    hide Responding, WarmupEvents;
    if !e.Defeated() {
      ChangeIsQuiet(w, id, Responding(config, w.time, e, frame), WarmupEvents(config, w.time, id, e, frame));
    }
  }

  lemma IntegrateIsQuiet(config: Config, w: World, id: EntityId)
    ensures Quiet(w, Integrate(config, w, id))
  {
    if id in w.entities {
      assert Stepped(config.rules, w.entities[id]).player == w.entities[id].player;
      hide Stepped, MoveEvents;
    }
  }

  /** A client never fires: only servers do. */
  lemma WarmIsQuiet(config: Config, w: World, id: EntityId)
    requires config.mode == ClientPrediction
    ensures Quiet(w, Warm(config, w, id))
  {
    if id in w.entities {
      var e := w.entities[id];
      assert Cooled(e, w.time).player == e.player && FireRequests(config, id, e, w.time) == [];
      hide Cooled, FireEvents, FireRequests;
      assert w.requests + [] == w.requests;
    }
  }

  lemma StrikeIsQuiet(config: Config, w: World, projectile: EntityId, source: Projectile, target: EntityId)
    requires target in w.entities
    ensures Quiet(w, Strike(config, w, projectile, source, target))
  {
    var e := w.entities[target];
    assert Hurt(config, w.time, source, e).player.Some? == e.player.Some?;
    hide Hurt, HurtEvents;
  }

  lemma FlyIsQuiet(config: Config, order: Order, w: World, id: EntityId)
    ensures Quiet(w, Fly(config, order, w, id))
  {
    if id in w.entities && w.entities[id].projectile.Some? {
      var e := w.entities[id];
      var body := Drifted(config.rules.tickMs, e.body);
      var flown := w.Change(id, e.(body := body), []);
      ChangeIsQuiet(w, id, e.(body := body), []);
      hide Drifted, OffMap, FirstHit, Strike;
      var hit := FirstHit(flown, e.projectile.value.owner, body, order(w.tick, 4 + id, Players(flown)));
      if hit.Some? {
        StrikeIsQuiet(config, flown, id, e.projectile.value, hit.value);
      }
    }
  }

  lemma RespawnIsQuiet(config: Config, w: World, id: EntityId)
    ensures Quiet(w, Respawn(config, w, id))
  {
    hide Spawn;
  }

  lemma DoIsQuiet(config: Config, order: Order, w: World, op: Op)
    requires config.mode == ClientPrediction && w.requests == []
    ensures Quiet(w, Do(config, order, w, op))
  {
    hide Quiet;
    match op {
      case DoInput(input) =>
        if input.client in w.playerByClient && w.playerByClient[input.client] in w.entities {
          ApplyToIsQuiet(config, w, w.playerByClient[input.client], input.frame);
        } else {
          SameIsQuiet(w, w);
        }
      case DoClearPending => SameIsQuiet(w, w.(pending := []));
      case DoIntegrate(id) => IntegrateIsQuiet(config, w, id);
      case DoClearIntents => ClearIntentsIsQuiet(w);
      case DoWarm(id) => WarmIsQuiet(config, w, id);
      case DoLaunch => SameIsQuiet(w, w);
      case DoFly(id) => FlyIsQuiet(config, order, w, id);
      case DoDestroy => DestroyIsQuiet(w);
      case DoRespawn(id) => RespawnIsQuiet(config, w, id);
    }
  }

  lemma SameIsQuiet(w: World, next: World)
    requires next.entities == w.entities && next.nextId == w.nextId && next.requests == w.requests
    ensures Quiet(w, next)
  {
  }

  lemma ClearIntentsIsQuiet(w: World)
    ensures Quiet(w, ClearIntents(w))
  {
  }

  lemma DestroyIsQuiet(w: World)
    ensures Quiet(w, Destroy(w))
  {
  }

  lemma QuietTwice(a: World, b: World, c: World)
    requires Quiet(a, b) && Quiet(b, c)
    ensures Quiet(a, c)
  {
    hide IsPlayer;
  }

  lemma {:induction false} ExecIsQuiet(config: Config, order: Order, w: World, ops: seq<Op>, n: nat)
    requires config.mode == ClientPrediction && w.requests == [] && n <= |ops|
    ensures Quiet(w, Exec(config, order, w, ops, n))
  {
    ExecUnfold(config, order, w, ops, n);
    if n > 0 {
      ExecIsQuiet(config, order, w, ops, n - 1);
      var before := Exec(config, order, w, ops, n - 1);
      hide Exec, Do, IsPlayer;
      DoIsQuiet(config, order, before, ops[n - 1]);
      QuietTwice(w, before, Do(config, order, before, ops[n - 1]));
    }
  }

  lemma TickIsQuiet(config: Config, order: Order, w: World)
    requires config.mode == ClientPrediction && w.requests == []
    ensures Quiet(w, TickFixed(config, order, w))
  {
    var start := Advance(config, w);
    var ops := TickOps(config, order, w);
    SameIsQuiet(w, start);
    TickIsOps(config, order, w);
    assert start.requests == [];
    hide TickOps, TickFixed, Exec, Advance, Quiet;
    ExecIsQuiet(config, order, start, ops, |ops|);
    QuietTwice(w, start, TickFixed(config, order, w));
  }

  lemma ReplayOneIsQuiet(config: Config, w: World, input: Input)
    ensures Quiet(w, ReplayOne(config, w, input)) && ReplayOne(config, w, input).playerByClient == w.playerByClient
  {
    if input.client in w.playerByClient && w.playerByClient[input.client] in w.entities {
      var id := w.playerByClient[input.client];
      var applied := ApplyTo(config, w, id, input.frame);
      var stepped := Integrate(config, applied, id);
      assert applied.playerByClient == w.playerByClient && stepped.playerByClient == w.playerByClient;
      assert id in applied.entities && id in stepped.entities;
      ApplyToIsQuiet(config, w, id, input.frame);
      IntegrateIsQuiet(config, applied, id);
      hide ApplyTo, Integrate;
      assert Quiet(stepped, ReplayOne(config, w, input));
      hide Quiet;
      QuietTwice(w, applied, stepped);
      QuietTwice(w, stepped, ReplayOne(config, w, input));
    }
  }

  lemma {:induction false} ReplayIsQuiet(config: Config, w: World, inputs: seq<Input>, n: nat)
    requires n <= |inputs|
    ensures Quiet(w, Replay(config, w, inputs, n)) && Replay(config, w, inputs, n).playerByClient == w.playerByClient
  {
    if n > 0 {
      ReplayIsQuiet(config, w, inputs, n - 1);
      ReplayOneIsQuiet(config, Replay(config, w, inputs, n - 1), inputs[n - 1]);
      hide ReplayOne, Quiet;
      QuietTwice(w, Replay(config, w, inputs, n - 1), Replay(config, w, inputs, n));
    } else {
      SameIsQuiet(w, w);
    }
  }

  // --- what a served snapshot does to them ---

  lemma SnapshotKeepsKnown(server: Config, config: Config, order: Order, clientOrder: Order, served: seq<Action>, w: World, snapshot: Snapshot, local: ClientId)
    requires Sane(server) && ValidOrder(order) && ValidOrder(clientOrder)
    requires ServedBy(server, order, served, snapshot) && WellNamed(snapshot.entities) && Known(server, order, served, w)
    ensures var next := ApplySnapshot(config, clientOrder, w, snapshot, local);
            Known(server, order, served, next) && next.nextId == w.nextId && next.requests == w.requests
  {
    var next := ApplySnapshot(config, clientOrder, w, snapshot, local);
    SnapshotPutsInLine(config, clientOrder, w, snapshot, local);
    var states := snapshot.entities;
    hide ApplySnapshot, WasPlayer, ServedBy, Synced;
    forall id | IsPlayer(next, id)
      ensures id == 1 || WasPlayer(server, order, served, id)
    {
      if id in Seen(states) {
        var k: nat :| k < |states| && states[k].movement.entityId == id;
        assert IsSynced(config, w, local, snapshot.serverTime, states[k], next);
        ServedKinds(server, order, served, snapshot, k);
        SyncedPlayerWas(config, if id in w.entities then w.entities[id] else BLANK, local, snapshot.serverTime, states[k]);
      } else {
        assert IsPlayer(w, id);
      }
    }
  }

  lemma SyncedPlayerWas(config: Config, e: Entity, local: ClientId, serverTime: Time, state: EntityState)
    ensures state.replica.kind == ProjectileKind ==> Synced(config, e, local, serverTime, state).player == e.player
  {
  }

  lemma ApplyingOneKeepsLocal(config: Config, w: World, local: ClientId, serverTime: Time, state: EntityState)
    requires local in w.playerByClient
    ensures local in ApplyState(config, w, local, serverTime, state).playerByClient
  {
    ApplyStateIndex(config, w, local, serverTime, state);
    hide ApplyState;
  }

  lemma AppliesUnfold(config: Config, w: World, local: ClientId, serverTime: Time, states: seq<EntityState>, n: nat)
    requires n <= |states|
    ensures ApplyStates(config, w, local, serverTime, states, n)
         == if n == 0 then w
            else ApplyState(config, ApplyStates(config, w, local, serverTime, states, n - 1), local, serverTime, states[n - 1])
  {
  }

  lemma {:induction false} ApplyingKeepsLocal(config: Config, w: World, local: ClientId, serverTime: Time, states: seq<EntityState>, n: nat)
    requires n <= |states| && local in w.playerByClient
    ensures local in ApplyStates(config, w, local, serverTime, states, n).playerByClient
  {
    hide *;
    AppliesUnfold(config, w, local, serverTime, states, n);
    if n > 0 {
      ApplyingKeepsLocal(config, w, local, serverTime, states, n - 1);
      ApplyingOneKeepsLocal(config, ApplyStates(config, w, local, serverTime, states, n - 1), local, serverTime, states[n - 1]);
    }
  }

  lemma SnapshotKeepsLocal(config: Config, order: Order, w: World, snapshot: Snapshot, local: ClientId)
    requires WellNamed(snapshot.entities) && ValidOrder(order) && Consistent(w) && local in w.playerByClient
    ensures local in ApplySnapshot(config, order, w, snapshot, local).playerByClient
  {
    var states := snapshot.entities;
    var applied := ApplyStates(config, w, local, snapshot.serverTime, states, |states|);
    var walk := LeaveOrder(order, applied, local, snapshot);
    assert Enumerates(walk, Leaving(applied, local, Seen(states)));
    ApplyingKeepsLocal(config, w, local, snapshot.serverTime, states, |states|);
    AppliedEntities(config, w, local, snapshot.serverTime, states, |states|);
    assert states[..|states|] == states;
    ConsistentHasNoImpostor(w, states, local);
    LeftIndex(applied, local, local, walk, |walk|);
    hide ApplyStates, LeaveAll, LeaveOrder, Seen, IsSynced, NoImpostor, Consistent;
    LeaversAreUnseen(config, w, states, local, local, applied, walk);
  }

  // --- client runs ---

  /** A client logs in locally at most once, before it knows its own player. */
  ghost predicate OneLogin(w: World, local: ClientId) {
    w.requests == [] && (w.nextId == 1 || local in w.playerByClient)
  }

  ghost predicate ServedInv(server: Config, order: Order, served: seq<Action>, r: Runtime, local: ClientId) {
    ClientInv(r, local) && Known(server, order, served, r.world) && OneLogin(r.world, local)
  }

  lemma QuietKeepsKnown(server: Config, order: Order, served: seq<Action>, w: World, next: World)
    requires Known(server, order, served, w) && Quiet(w, next)
    ensures Known(server, order, served, next)
  {
    hide WasPlayer, IsPlayer;
  }

  lemma LoginKeepsKnown(server: Config, config: Config, order: Order, served: seq<Action>, w: World, local: ClientId)
    requires Known(server, order, served, w) && OneLogin(w, local)
    ensures var next := Login(config, w, local, 0);
            Known(server, order, served, next) && OneLogin(next, local)
  {
    hide WasPlayer, NewPlayer, Spawn;
    var next := Login(config, w, local, 0);
    forall id | IsPlayer(next, id)
      ensures id == 1 || WasPlayer(server, order, served, id)
    {
      assert id == 1 || IsPlayer(w, id);
    }
  }

  /** Actions whose snapshots the server's run has produced. */
  ghost predicate Serves(server: Config, order: Order, served: seq<Action>, action: ClientAction) {
    action.TakeSnapshot? ==> ServedBy(server, order, served, action.snapshot)
  }

  lemma ServedTakes(server: Config, order: Order, served: seq<Action>, r: Runtime, local: ClientId, action: ClientAction)
    requires Sane(server) && ValidOrder(order) && ServedInv(server, order, served, r, local)
    requires Serves(server, order, served, action)
    ensures Takes(r, action)
  {
    if action.TakeSnapshot? {
      ServedIsWellNamed(server, order, served, action.snapshot);
      ServedKeepsKinds(server, order, served, r.world, action.snapshot);
    }
    hide ServedBy, Known, WellNamed, KeepsKinds, ClientInv;
  }

  lemma SnapshotKeepsServed(server: Config, config: Config, order: Order, clientOrder: Order, served: seq<Action>, local: ClientId, r: Runtime, snapshot: Snapshot)
    requires Sane(server) && ValidOrder(order) && ValidOrder(clientOrder)
    requires ServedInv(server, order, served, r, local) && ServedBy(server, order, served, snapshot)
    ensures var next := Reconcile(config, clientOrder, r.world, r.history, snapshot, local);
            Known(server, order, served, next) && OneLogin(next, local)
  {
    ServedIsWellNamed(server, order, served, snapshot);
    SnapshotKeepsKnown(server, config, order, clientOrder, served, r.world, snapshot, local);
    if local in r.world.playerByClient {
      SnapshotKeepsLocal(config, clientOrder, r.world, snapshot, local);
    }
    var applied := ApplySnapshot(config, clientOrder, r.world, snapshot, local);
    var unacked := AcknowledgeThrough(r.history, snapshot.ackedInput);
    ReplayIsQuiet(config, applied, unacked, |unacked|);
    var next := Reconcile(config, clientOrder, r.world, r.history, snapshot, local);
    assert Quiet(applied, next) && next.playerByClient == applied.playerByClient;
    QuietKeepsKnown(server, order, served, applied, next);
    hide ApplySnapshot, Replay, AcknowledgeThrough, Known, ServedBy, WellNamed;
  }

  lemma StepKeepsServed(server: Config, config: Config, order: Order, clientOrder: Order, served: seq<Action>, local: ClientId, r: Runtime, action: ClientAction)
    requires Sane(server) && ValidOrder(order) && ValidOrder(clientOrder) && config.mode == ClientPrediction
    requires ServedInv(server, order, served, r, local) && Serves(server, order, served, action)
    ensures ServedInv(server, order, served, ClientStep(config, clientOrder, local, r, action), local)
  {
    ServedTakes(server, order, served, r, local, action);
    ClientStepKeepsInv(config, clientOrder, local, r, action);
    assert r.world.requests == [];
    match action {
      case ConnectLocal =>
        LoginKeepsKnown(server, config, order, served, r.world, local);
        hide Login, ClientInv, Known, OneLogin;
      case QueueInput(frame) =>
        var next := Submit(r.world, Input(local, r.nextSequence, frame));
        SubmitFacts(r.world, Input(local, r.nextSequence, frame));
        SameIsQuiet(r.world, next);
        QuietKeepsKnown(server, order, served, r.world, next);
        hide ClientInv, Known, Submit;
      case TickSimulation =>
        TickIsQuiet(config, clientOrder, r.world);
        TickKeepsCommands(config, clientOrder, r.world);
        QuietKeepsKnown(server, order, served, r.world, TickFixed(config, clientOrder, r.world));
        hide ClientInv, Known, TickFixed;
      case TakeSnapshot(snapshot) =>
        SnapshotKeepsServed(server, config, order, clientOrder, served, local, r, snapshot);
        hide ClientInv, Known, OneLogin, Reconcile;
    }
  }

  ghost predicate AllServed(server: Config, order: Order, served: seq<Action>, actions: seq<ClientAction>) {
    forall k :: 0 <= k < |actions| ==> Serves(server, order, served, actions[k])
  }

  lemma {:induction false} ServedRunKeepsInv(server: Config, config: Config, order: Order, clientOrder: Order, served: seq<Action>, local: ClientId, actions: seq<ClientAction>, n: nat)
    requires Sane(server) && ValidOrder(order) && ValidOrder(clientOrder) && config.mode == ClientPrediction
    requires AllServed(server, order, served, actions) && n <= |actions|
    ensures ServedInv(server, order, served, ClientRun.ClientRun(config, clientOrder, local, actions[..n]), local)
  {
    if n > 0 {
      ServedRunKeepsInv(server, config, order, clientOrder, served, local, actions, n - 1);
      assert actions[..n][..n - 1] == actions[..n - 1];
      hide ServedInv, ClientStep, Serves;
      StepKeepsServed(server, config, order, clientOrder, served, local, ClientRun.ClientRun(config, clientOrder, local, actions[..n - 1]), actions[n - 1]);
    }
  }

  /** Every run of a client whose snapshots come from one server run is one the prediction
      theorem is about. */
  lemma ServedRunIsTakeable(server: Config, config: Config, order: Order, clientOrder: Order, served: seq<Action>, local: ClientId, actions: seq<ClientAction>)
    requires Sane(server) && ValidOrder(order) && ValidOrder(clientOrder) && config.mode == ClientPrediction
    requires AllServed(server, order, served, actions)
    ensures Takeable(config, clientOrder, local, actions)
  {
    forall n: nat | n < |actions|
      ensures TakesAt(config, clientOrder, local, actions, n)
    {
      ServedRunKeepsInv(server, config, order, clientOrder, served, local, actions, n);
      ServedTakes(server, order, served, ClientRun.ClientRun(config, clientOrder, local, actions[..n]), local, actions[n]);
      hide ClientRun.ClientRun, ServedInv, Serves, Takes;
    }
  }

  /** The prediction theorem between a running server and one of its clients. The client
      has connected, queued inputs, ticked and taken planned snapshots of any states of the
      server's run, in any order and any number of times; taking the snapshot of a state
      puts its own player where the server will have it once it has consumed the rest of
      the client's history, one input a tick, the player not dying. */
  lemma RunningClientPredicts(server: Config, config: Config, order: Order, clientOrder: Order,
                              actions: seq<Action>, later: seq<Action>, rounds: seq<seq<Action>>, clientActions: seq<ClientAction>,
                              client: ClientId, sid: SnapshotId, baseline: SnapshotId, old_: seq<Input>, inputs: seq<Input>)
    requires Sane(server) && Chunked(server.rules.map_)
    requires config.rules == server.rules && config.mode == ClientPrediction
    requires ValidOrder(order) && ValidOrder(clientOrder) && client != 0 && |rounds| == |inputs|
    requires AllServed(server, order, actions + [Tick] + later, clientActions)
    requires ClientRun.ClientRun(config, clientOrder, client, clientActions).history == old_ + inputs
    requires var g := Run(server, order, actions + [Tick]);
             && client in g.world.playerByClient
             && IsPlayer(g.world, g.world.playerByClient[client])
             && !g.world.entities[g.world.playerByClient[client]].Defeated()
             && (forall k: nat :: k < |rounds| ==> RoundOk(server, order, g, rounds, client, g.world.playerByClient[client], inputs, k))
    requires var snapshot := BuildSnapshot(server, order, Run(server, order, actions + [Tick]).world, client, sid, baseline);
             forall k :: 0 <= k < |old_| ==> old_[k].sequence <= snapshot.ackedInput
    ensures var g := Run(server, order, actions + [Tick]);
            var snapshot := BuildSnapshot(server, order, g.world, client, sid, baseline);
            var r := ClientRun.ClientRun(config, clientOrder, client, clientActions);
            SamePlace(ClientStep(config, clientOrder, client, r, TakeSnapshot(snapshot)).world,
                      Played(server, order, g, rounds, |rounds|).world, g.world.playerByClient[client])
  {
    hide *;
    ServedRunIsTakeable(server, config, order, clientOrder, actions + [Tick] + later, client, clientActions);
    TakeableClientPredicts(server, config, order, clientOrder, actions, rounds, clientActions, client, sid, baseline, old_, inputs);
  }
}
