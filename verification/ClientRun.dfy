/** The client runtime over whole runs: connecting, queueing inputs, ticking its own
    simulation and taking snapshots (Client/src/ClientRuntime.cpp,
    Client/src/PendingInputHistory.cpp). */
module ClientRun {
  import opened Basics
  import opened Replication
  import opened Events
  import opened Motion
  import opened Simulation
  import opened Structure
  import opened LifeCycle
  import opened Replicas
  import opened Game
  import opened Prediction

  datatype Runtime = Runtime(world: World, history: seq<Input>, nextSequence: Sequence)

  datatype ClientAction =
    | ConnectLocal
    | QueueInput(frame: InputFrame)
    | TickSimulation
    | TakeSnapshot(snapshot: Snapshot)

  const NEW_RUNTIME := Runtime(NEW_WORLD, [], 1)

  function ClientStep(config: Config, order: Order, local: ClientId, r: Runtime, action: ClientAction): Runtime {
    match action
    case ConnectLocal => r.(world := Login(config, r.world, local, 0))
    case QueueInput(frame) =>
      var packet := Input(local, r.nextSequence, frame);
      Runtime(Submit(r.world, packet), r.history + [packet], r.nextSequence + 1)
    case TickSimulation => r.(world := TickFixed(config, order, r.world))
    case TakeSnapshot(snapshot) =>
      r.(world := Reconcile(config, order, r.world, r.history, snapshot, local),
         history := AcknowledgeThrough(r.history, snapshot.ackedInput))
  }

  function ClientRun(config: Config, order: Order, local: ClientId, actions: seq<ClientAction>): Runtime {
    if actions == [] then NEW_RUNTIME
    else ClientStep(config, order, local, ClientRun(config, order, local, actions[..|actions| - 1]), actions[|actions| - 1])
  }

  // --- players belong to the client they say ---

  ghost predicate TrueTo(e: Entity) {
    e.player.Some? ==> e.owner == Some(e.player.value.client)
  }

  ghost predicate Consistent(w: World) {
    forall id :: id in w.entities ==> TrueTo(w.entities[id])
  }

  /** The snapshot does not turn a player this world knows into a projectile. */
  ghost predicate KeepsKinds(w: World, states: seq<EntityState>) {
    forall k :: 0 <= k < |states| && states[k].replica.kind == ProjectileKind ==> !IsPlayer(w, states[k].movement.entityId)
  }

  lemma ChangeIsConsistent(w: World, id: EntityId, e: Entity, news: seq<DomainEvent>)
    requires Consistent(w) && TrueTo(e)
    ensures Consistent(w.Change(id, e, news))
  {
  }

  lemma FlyIsConsistent(config: Config, order: Order, w: World, id: EntityId)
    requires Consistent(w)
    ensures Consistent(Fly(config, order, w, id))
  {
    if id in w.entities && w.entities[id].projectile.Some? {
      var e := w.entities[id];
      var body := Drifted(config.rules.tickMs, e.body);
      var flown := w.Change(id, e.(body := body), []);
      ChangeIsConsistent(w, id, e.(body := body), []);
      hide Consistent, Drifted, OffMap, FirstHit;
      var hit := FirstHit(flown, e.projectile.value.owner, body, order(w.tick, 4 + id, Players(flown)));
      if w.time >= e.projectile.value.expiresAt || OffMap(config, body) || hit.None? {
        SameIsConsistent(flown, Fly(config, order, w, id));
      } else {
        StrikeIsConsistent(config, flown, id, e.projectile.value, hit.value);
      }
    }
  }

  lemma SameIsConsistent(w: World, next: World)
    requires Consistent(w) && next.entities == w.entities
    ensures Consistent(next)
  {
  }

  lemma StrikeIsConsistent(config: Config, w: World, projectile: EntityId, source: Projectile, target: EntityId)
    requires Consistent(w) && target in w.entities
    ensures Consistent(Strike(config, w, projectile, source, target))
  {
    assert TrueTo(w.entities[target]);
    assert TrueTo(Hurt(config, w.time, source, w.entities[target]));
    hide Hurt, HurtEvents;
  }

  lemma WarmIsConsistent(config: Config, w: World, id: EntityId)
    requires Consistent(w)
    ensures Consistent(Warm(config, w, id))
  {
    if id in w.entities {
      assert TrueTo(w.entities[id]) && TrueTo(Cooled(w.entities[id], w.time));
      hide Cooled, FireEvents, FireRequests;
    }
  }

  lemma InputIsConsistent(config: Config, w: World, id: EntityId, frame: InputFrame)
    requires Consistent(w) && id in w.entities
    ensures Consistent(ApplyTo(config, w, id, frame))
  {
    assert TrueTo(w.entities[id]) && TrueTo(Responding(config, w.time, w.entities[id], frame));
    hide Responding, WarmupEvents;
  }

  lemma IntegrateIsConsistent(config: Config, w: World, id: EntityId)
    requires Consistent(w)
    ensures Consistent(Integrate(config, w, id))
  {
    if id in w.entities {
      assert TrueTo(w.entities[id]) && TrueTo(Stepped(config.rules, w.entities[id]));
      hide Stepped, MoveEvents;
    }
  }

  lemma RespawnIsConsistent(config: Config, w: World, id: EntityId)
    requires Consistent(w)
    ensures Consistent(Respawn(config, w, id))
  {
    if id in w.entities && w.entities[id].player.Some? {
      assert TrueTo(w.entities[id]) && TrueTo(Revived(config, w.entities[id]));
      hide Revived;
    }
  }

  lemma DoIsConsistent(config: Config, order: Order, w: World, op: Op)
    requires Consistent(w)
    ensures Consistent(Do(config, order, w, op))
  {
    match op {
      case DoInput(input) =>
        if input.client in w.playerByClient && w.playerByClient[input.client] in w.entities {
          InputIsConsistent(config, w, w.playerByClient[input.client], input.frame);
          hide ApplyTo;
        }
      case DoClearPending =>
      case DoIntegrate(id) => IntegrateIsConsistent(config, w, id);
      case DoClearIntents =>
      case DoWarm(id) => WarmIsConsistent(config, w, id);
      case DoLaunch =>
      case DoFly(id) => FlyIsConsistent(config, order, w, id);
      case DoDestroy =>
      case DoRespawn(id) => RespawnIsConsistent(config, w, id);
    }
  }

  lemma {:induction false} ExecIsConsistent(config: Config, order: Order, w: World, ops: seq<Op>, n: nat)
    requires Consistent(w) && n <= |ops|
    ensures Consistent(Exec(config, order, w, ops, n))
  {
    hide *;
    ExecUnfold(config, order, w, ops, n);
    if n > 0 {
      ExecIsConsistent(config, order, w, ops, n - 1);
      DoIsConsistent(config, order, Exec(config, order, w, ops, n - 1), ops[n - 1]);
    }
  }

  lemma TickIsConsistent(config: Config, order: Order, w: World)
    requires Consistent(w)
    ensures Consistent(TickFixed(config, order, w))
  {
    var ops := TickOps(config, order, w);
    TickIsOps(config, order, w);
    SameIsConsistent(w, Advance(config, w));
    hide TickOps, TickFixed, Consistent, Exec;
    ExecIsConsistent(config, order, Advance(config, w), ops, |ops|);
  }

  lemma SyncedIsTrue(config: Config, e: Entity, local: ClientId, serverTime: Time, state: EntityState)
    requires state.replica.kind == ProjectileKind ==> e.player.None?
    ensures TrueTo(Synced(config, e, local, serverTime, state))
  {
  }

  lemma SnapshotIsConsistent(config: Config, order: Order, w: World, snapshot: Snapshot, local: ClientId)
    requires Consistent(w) && WellNamed(snapshot.entities) && ValidOrder(order) && KeepsKinds(w, snapshot.entities)
    ensures Consistent(ApplySnapshot(config, order, w, snapshot, local))
  {
    SnapshotPutsInLine(config, order, w, snapshot, local);
    var next := ApplySnapshot(config, order, w, snapshot, local);
    var states := snapshot.entities;
    hide ApplySnapshot, Synced, TrueTo;
    forall id | id in next.entities
      ensures TrueTo(next.entities[id])
    {
      if id in Seen(states) {
        var k :| 0 <= k < |states| && states[k].movement.entityId == id;
        assert IsSynced(config, w, local, snapshot.serverTime, states[k], next);
        SyncedIsTrue(config, if id in w.entities then w.entities[id] else BLANK, local, snapshot.serverTime, states[k]);
      }
    }
  }

  lemma ReplayOneIsConsistent(config: Config, w: World, input: Input)
    requires Consistent(w)
    ensures Consistent(ReplayOne(config, w, input))
  {
    if input.client in w.playerByClient && w.playerByClient[input.client] in w.entities {
      var id := w.playerByClient[input.client];
      var applied := ApplyTo(config, w, id, input.frame);
      InputIsConsistent(config, w, id, input.frame);
      hide ApplyTo;
      IntegrateIsConsistent(config, applied, id);
      hide Stepped, MoveEvents;
      assert id in applied.entities ==> TrueTo(Integrate(config, applied, id).entities[id]);
    }
  }

  lemma {:induction false} ReplayIsConsistent(config: Config, w: World, inputs: seq<Input>, n: nat)
    requires Consistent(w) && n <= |inputs|
    ensures Consistent(Replay(config, w, inputs, n))
  {
    if n > 0 {
      ReplayIsConsistent(config, w, inputs, n - 1);
      ReplayOneIsConsistent(config, Replay(config, w, inputs, n - 1), inputs[n - 1]);
      hide ReplayOne, Consistent;
    }
  }

  lemma LoginIsConsistent(config: Config, w: World, client: ClientId, sequence: Sequence)
    requires Consistent(w)
    ensures Consistent(Login(config, w, client, sequence))
  {
    assert TrueTo(NewPlayer(config, client));
    hide NewPlayer, Spawn;
  }

  // --- the history ---

  ghost predicate HistoryOk(r: Runtime, local: ClientId) {
    && (forall k :: 0 <= k < |r.history| ==> r.history[k].client == local && r.history[k].sequence < r.nextSequence)
    && Increasing(r.history)
  }

  lemma {:induction false} AcknowledgeMembers(inputs: seq<Input>, sequence: Sequence)
    ensures forall input :: input in AcknowledgeThrough(inputs, sequence) <==> input in inputs && input.sequence > sequence
  {
    if inputs != [] {
      AcknowledgeMembers(inputs[..|inputs| - 1], sequence);
      assert inputs == inputs[..|inputs| - 1] + [inputs[|inputs| - 1]];
    }
  }

  lemma {:induction false} AcknowledgeIncreases(inputs: seq<Input>, sequence: Sequence)
    requires Increasing(inputs)
    ensures Increasing(AcknowledgeThrough(inputs, sequence))
  {
    if inputs != [] {
      var front := inputs[..|inputs| - 1];
      var last := inputs[|inputs| - 1];
      assert Increasing(front);
      AcknowledgeIncreases(front, sequence);
      AcknowledgeMembers(front, sequence);
      var left := AcknowledgeThrough(front, sequence);
      forall k | 0 <= k < |left| && left[k].client == last.client
        ensures left[k].sequence < last.sequence
      {
        assert left[k] in front;
      }
      assert Increasing(left + [last]);
    }
  }

  /** Acknowledging keeps exactly the newer inputs, in order. */
  lemma AcknowledgeKeepsNewer(inputs: seq<Input>, sequence: Sequence)
    requires Increasing(inputs)
    ensures var left := AcknowledgeThrough(inputs, sequence);
            && Increasing(left)
            && (forall input :: input in left <==> input in inputs && input.sequence > sequence)
  {
    AcknowledgeMembers(inputs, sequence);
    AcknowledgeIncreases(inputs, sequence);
  }

  ghost predicate ClientInv(r: Runtime, local: ClientId) {
    Consistent(r.world) && HistoryOk(r, local)
  }

  /** Snapshots a client may take: entities named once, no known player turned into a
      projectile. */
  ghost predicate Takes(r: Runtime, action: ClientAction) {
    action.TakeSnapshot? ==> WellNamed(action.snapshot.entities) && KeepsKinds(r.world, action.snapshot.entities)
  }

  lemma ClientStepKeepsHistory(config: Config, order: Order, local: ClientId, r: Runtime, action: ClientAction)
    requires HistoryOk(r, local)
    ensures HistoryOk(ClientStep(config, order, local, r, action), local)
  {
    hide TickFixed, Reconcile, Login, Submit;
    if action.TakeSnapshot? {
      AcknowledgeKeepsNewer(r.history, action.snapshot.ackedInput);
      var left := AcknowledgeThrough(r.history, action.snapshot.ackedInput);
      assert forall k :: 0 <= k < |left| ==> left[k] in r.history;
    }
  }

  lemma ClientStepKeepsInv(config: Config, order: Order, local: ClientId, r: Runtime, action: ClientAction)
    requires ValidOrder(order) && ClientInv(r, local) && Takes(r, action)
    ensures ClientInv(ClientStep(config, order, local, r, action), local)
  {
    ClientStepKeepsHistory(config, order, local, r, action);
    hide Consistent, HistoryOk, TickFixed, Login, ApplySnapshot, WellNamed, KeepsKinds, Replay;
    match action {
      case ConnectLocal => LoginIsConsistent(config, r.world, local, 0);
      case QueueInput(frame) => SameIsConsistent(r.world, Submit(r.world, Input(local, r.nextSequence, frame)));
      case TickSimulation => TickIsConsistent(config, order, r.world);
      case TakeSnapshot(snapshot) =>
        SnapshotIsConsistent(config, order, r.world, snapshot, local);
        var unacked := AcknowledgeThrough(r.history, snapshot.ackedInput);
        ReplayIsConsistent(config, ApplySnapshot(config, order, r.world, snapshot, local), unacked, |unacked|);
    }
  }

  ghost predicate Takeable(config: Config, order: Order, local: ClientId, actions: seq<ClientAction>) {
    forall n: nat :: n < |actions| ==> TakesAt(config, order, local, actions, n)
  }

  ghost predicate TakesAt(config: Config, order: Order, local: ClientId, actions: seq<ClientAction>, n: nat)
    requires n < |actions|
  {
    Takes(ClientRun(config, order, local, actions[..n]), actions[n])
  }

  lemma {:induction false} ClientRunKeepsInv(config: Config, order: Order, local: ClientId, actions: seq<ClientAction>, n: nat)
    requires ValidOrder(order) && Takeable(config, order, local, actions) && n <= |actions|
    ensures ClientInv(ClientRun(config, order, local, actions[..n]), local)
  {
    if n > 0 {
      ClientRunKeepsInv(config, order, local, actions, n - 1);
      assert actions[..n][..n - 1] == actions[..n - 1];
      assert TakesAt(config, order, local, actions, n - 1);
      hide ClientInv, ClientStep, Takes;
      ClientStepKeepsInv(config, order, local, ClientRun(config, order, local, actions[..n - 1]), actions[n - 1]);
    }
  }

  lemma ConsistentHasNoImpostor(w: World, states: seq<EntityState>, local: ClientId)
    requires Consistent(w)
    ensures NoImpostor(w, states, local)
  {
    forall id | id in w.entities && id !in Seen(states) && !OwnedBy(w.entities[id], local) && w.entities[id].player.Some?
      ensures w.entities[id].player.value.client != local
    {
      assert TrueTo(w.entities[id]);
    }
  }

  /** The prediction theorem between a running server and a client whose earlier snapshots
      it could take: after any such run, taking the server's snapshot puts the client's own player where the
      server will have it once it has consumed the rest of the client's history. */
  lemma TakeableClientPredicts(server: Config, config: Config, order: Order, clientOrder: Order,
                               actions: seq<Action>, rounds: seq<seq<Action>>, clientActions: seq<ClientAction>,
                               client: ClientId, sid: SnapshotId, baseline: SnapshotId, old_: seq<Input>, inputs: seq<Input>)
    requires Sane(server) && Chunked(server.rules.map_) && config.rules == server.rules
    requires ValidOrder(order) && ValidOrder(clientOrder) && client != 0 && |rounds| == |inputs|
    requires Takeable(config, clientOrder, client, clientActions)
    requires ClientRun(config, clientOrder, client, clientActions).history == old_ + inputs
    requires var g := Run(server, order, actions + [Tick]);
             && client in g.world.playerByClient
             && IsPlayer(g.world, g.world.playerByClient[client])
             && !g.world.entities[g.world.playerByClient[client]].Defeated()
             && (forall k: nat :: k < |rounds| ==> RoundOk(server, order, g, rounds, client, g.world.playerByClient[client], inputs, k))
    requires var snapshot := BuildSnapshot(server, order, Run(server, order, actions + [Tick]).world, client, sid, baseline);
             forall k :: 0 <= k < |old_| ==> old_[k].sequence <= snapshot.ackedInput
    ensures var g := Run(server, order, actions + [Tick]);
            var snapshot := BuildSnapshot(server, order, g.world, client, sid, baseline);
            var r := ClientRun(config, clientOrder, client, clientActions);
            SamePlace(ClientStep(config, clientOrder, client, r, TakeSnapshot(snapshot)).world,
                      Played(server, order, g, rounds, |rounds|).world, g.world.playerByClient[client])
  {
    var g := Run(server, order, actions + [Tick]);
    var snapshot := BuildSnapshot(server, order, g.world, client, sid, baseline);
    var r := ClientRun(config, clientOrder, client, clientActions);
    assert clientActions[..|clientActions|] == clientActions;
    ClientRunKeepsInv(config, clientOrder, client, clientActions, |clientActions|);
    assert Consistent(r.world);
    StepTakes(config, clientOrder, client, r, snapshot);
    hide *;
    ConsistentHasNoImpostor(r.world, snapshot.entities, client);
    ReplayPredictsServer(server, config, order, clientOrder, actions, rounds, client, sid, baseline, r.world, old_, inputs);
  }

  lemma StepTakes(config: Config, order: Order, local: ClientId, r: Runtime, snapshot: Snapshot)
    ensures ClientStep(config, order, local, r, TakeSnapshot(snapshot)).world == Reconcile(config, order, r.world, r.history, snapshot, local)
  {
  }

  // --- the object that keeps unacknowledged inputs ---

  class PendingInputHistory {
    var unacked: seq<Input>

    constructor ()
      ensures unacked == []
    {
      unacked := [];
    }

    method Record(packet: Input)
      modifies this
      ensures unacked == old(unacked) + [packet]
    {
      unacked := unacked + [packet];
    }

    method AcknowledgeThrough(sequence: Sequence)
      modifies this
      ensures unacked == Replicas.AcknowledgeThrough(old(unacked), sequence)
    {
      var kept := [];
      var i := 0;
      while i < |unacked|
        invariant i <= |unacked|
        invariant kept == Replicas.AcknowledgeThrough(unacked[..i], sequence)
      {
        assert unacked[..i + 1][..i] == unacked[..i];
        if unacked[i].sequence > sequence {
          kept := kept + [unacked[i]];
        }
        i := i + 1;
      }
      assert unacked[..|unacked|] == unacked;
      unacked := kept;
    }
  }
}
