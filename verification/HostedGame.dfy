/** The simulation under the replication host (Server/src/ServerNetworkHost.cpp,
    Server/src/ServerRuntime.cpp): what the simulation shows is what the protocol results
    ask for, and the input each snapshot acknowledges is one already consumed. */
module HostedGame {
  import opened Basics
  import opened Replication
  import opened Events
  import Motion
  import Sim = Simulation
  import Structure
  import LifeCycle
  import Replicas
  import Game
  import Prediction
  import Planner
  import opened Host
  import SD = SnapshotDelivery

  /** What a server's simulation shows its host: for each client of the host the entities
      of the snapshot built for it, and the events not drained yet. */
  function Shown(config: Sim.Config, order: Order, w: Sim.World, clients: set<ClientId>): World
    requires Replicas.Chunked(config.rules.map_)
  {
    World(w.tick, w.time, w.lastAccepted,
          map c | c in clients :: Replicas.BuildSnapshot(config, order, w, c, 0, 0).entities,
          w.events)
  }

  // --- a simulation never queues interest events ---

  ghost predicate NoInterest(events: seq<DomainEvent>) {
    forall k :: 0 <= k < |events| ==> !events[k].EnteredInterest? && !events[k].LeftInterest?
  }

  lemma DoQueuesNoInterest(config: Sim.Config, order: Order, w: Sim.World, op: Sim.Op)
    requires NoInterest(w.events)
    ensures NoInterest(Sim.Do(config, order, w, op).events)
  {
    hide Sim.Responding, Sim.Stepped, Sim.Cooled, Sim.FirstHit, Sim.Hurt, Motion.Drifted, Sim.OffMap, Sim.Revived, Sim.Arrow;
  }

  lemma {:induction false} ExecQueuesNoInterest(config: Sim.Config, order: Order, w: Sim.World, ops: seq<Sim.Op>, n: nat)
    requires NoInterest(w.events) && n <= |ops|
    ensures NoInterest(Sim.Exec(config, order, w, ops, n).events)
  {
    hide *;
    Structure.ExecUnfold(config, order, w, ops, n);
    if n > 0 {
      ExecQueuesNoInterest(config, order, w, ops, n - 1);
      DoQueuesNoInterest(config, order, Sim.Exec(config, order, w, ops, n - 1), ops[n - 1]);
    }
  }

  lemma StepQueuesNoInterest(config: Sim.Config, order: Order, g: Game.Game, action: Game.Action)
    requires NoInterest(g.world.events)
    ensures NoInterest(Game.Step(config, order, g, action).world.events)
  {
    if action.Tick? {
      var start := Sim.Advance(config, g.world);
      var ops := Structure.TickOps(config, order, g.world);
      Structure.TickIsOps(config, order, g.world);
      ExecQueuesNoInterest(config, order, start, ops, |ops|);
      hide Sim.TickFixed, Structure.TickOps, Sim.Exec;
    } else {
      Prediction.StepCommand(config, order, g, action);
      hide Game.Step;
    }
  }

  lemma {:induction false} RunQueuesNoInterest(config: Sim.Config, order: Order, actions: seq<Game.Action>)
    ensures NoInterest(Game.Run(config, order, actions).world.events)
  {
    if actions != [] {
      RunQueuesNoInterest(config, order, actions[..|actions| - 1]);
      StepQueuesNoInterest(config, order, Game.Run(config, order, actions[..|actions| - 1]), actions[|actions| - 1]);
      hide NoInterest, Game.Step;
    }
  }

  /** What any reachable simulation shows is a world the protocol results are about. */
  lemma ShownIsServerWorld(config: Sim.Config, order: Order, actions: seq<Game.Action>, clients: set<ClientId>)
    requires Replicas.Chunked(config.rules.map_) && ValidOrder(order)
    ensures SD.ServerWorld(Shown(config, order, Game.Run(config, order, actions).world, clients))
  {
    RunQueuesNoInterest(config, order, actions);
    var w := Game.Run(config, order, actions).world;
    var world := Shown(config, order, w, clients);
    hide Game.Run, Replicas.BuildSnapshot;
    forall c
      ensures DistinctIds(world.Visible(c))
    {
      if c in clients {
        Prediction.SnapshotShows(config, order, w, c, 0, 0);
      }
    }
  }

  // --- what snapshots acknowledge ---

  /** Snapshots tried from a position on acknowledge what the world says. */
  ghost predicate AckedBy(world: World, log: seq<Attempt>, from: nat) {
    forall i :: from <= i < |log| && log[i].message.SnapshotMessage? ==>
      log[i].message.snapshot.ackedInput == world.AckedInput(log[i].peer)
  }

  ghost predicate Acking(world: World, h: State, next: State) {
    h.log <= next.log && AckedBy(world, next.log, |h.log|) && next.clients == h.clients
  }

  lemma ReliableAcks(world: World, h: State, next: State)
    requires SD.OnlyReliable(h, next)
    ensures Acking(world, h, next)
  {
  }

  lemma AckingTwice(world: World, a: State, b: State, c: State)
    requires Acking(world, a, b) && Acking(world, b, c)
    ensures Acking(world, a, c)
  {
    forall i | |a.log| <= i < |c.log| && c.log[i].message.SnapshotMessage?
      ensures c.log[i].message.snapshot.ackedInput == world.AckedInput(c.log[i].peer)
    {
      if i < |b.log| {
        assert c.log[i] == b.log[i];
      }
    }
  }

  lemma {:induction false} InterestAcks(h: State, oracle: Oracle, world: World, client: ClientId, events: seq<DomainEvent>, n: nat, now: Time)
    requires n <= |events|
    ensures Acking(world, h, SendInterest(h, oracle, world, client, events, n, now))
  {
    hide BroadcastOne;
    if n > 0 {
      InterestAcks(h, oracle, world, client, events, n - 1, now);
      var before := SendInterest(h, oracle, world, client, events, n - 1, now);
      SD.BroadcastOneIsReliable(before, oracle, world, events[n - 1], [client], now);
      var after := BroadcastOne(before, oracle, world, events[n - 1], [client], now);
      ReliableAcks(world, before, after);
      AckingTwice(world, h, before, after);
    }
  }

  lemma TryAcks(h: State, oracle: Oracle, config: Config, world: World, client: ClientId, now: Time)
    ensures Acking(world, h, TrySnapshot(h, oracle, PlannedFor(h, config, world, client), client, now))
  {
    hide Planner.Kept, DecisionFor;
  }

  lemma ShiftAcks(h: State, oracle: Oracle, world: World, snapshot: Snapshot, client: ClientId, now: Time)
    ensures Acking(world, h, ShiftInterest(h, oracle, world, snapshot, client, now))
  {
    if client in h.states {
      var frame := InterestFrame(h, oracle, snapshot, client);
      var moved := MoveInterest(h, frame, snapshot, client);
      var events := InterestEvents(frame, client);
      hide InterestFrame, InterestEvents;
      InterestAcks(moved, oracle, world, client, events, |events|, now);
    }
  }

  lemma TurnAcks(h: State, oracle: Oracle, config: Config, world: World, client: ClientId, now: Time)
    ensures Acking(world, h, SnapshotTurn(h, oracle, config, world, client, now))
  {
    var planned := PlannedFor(h, config, world, client);
    var tried := TrySnapshot(h, oracle, planned, client, now);
    TryAcks(h, oracle, config, world, client, now);
    var shifted := ShiftInterest(tried, oracle, world, planned.snapshot, client, now);
    ShiftAcks(tried, oracle, world, planned.snapshot, client, now);
    AckingTwice(world, h, tried, shifted);
    hide PlannedFor, TrySnapshot, ShiftInterest, DecisionFor;
  }

  lemma {:induction false} SnapshotsAck(h: State, oracle: Oracle, config: Config, world: World, n: nat, now: Time)
    requires n <= |h.clients|
    ensures Acking(world, h, Snapshots(h, oracle, config, world, n, now))
  {
    hide SnapshotTurn;
    if n > 0 {
      SnapshotsAck(h, oracle, config, world, n - 1, now);
      var before := Snapshots(h, oracle, config, world, n - 1, now);
      TurnAcks(before, oracle, config, world, h.clients[n - 1], now);
      AckingTwice(world, h, before, SnapshotTurn(before, oracle, config, world, h.clients[n - 1], now));
    }
  }

  lemma {:induction false} BroadcastAcks(h: State, oracle: Oracle, world: World, events: seq<DomainEvent>, n: nat, now: Time)
    requires n <= |events|
    ensures Acking(world, h, Broadcast(h, oracle, world, events, n, now))
  {
    hide BroadcastOne;
    if n > 0 {
      BroadcastAcks(h, oracle, world, events, n - 1, now);
      var before := Broadcast(h, oracle, world, events, n - 1, now);
      SD.BroadcastOneIsReliable(before, oracle, world, events[n - 1], h.clients, now);
      var after := BroadcastOne(before, oracle, world, events[n - 1], h.clients, now);
      ReliableAcks(world, before, after);
      AckingTwice(world, h, before, after);
    }
  }

  lemma TickAcks(h: State, oracle: Oracle, config: Config, world: World, now: Time)
    ensures Acking(world, h, Tick(h, oracle, config, world, now))
  {
    var snapshotted := Snapshots(h, oracle, config, world, |h.clients|, now);
    SnapshotsAck(h, oracle, config, world, |h.clients|, now);
    var told := Broadcast(snapshotted, oracle, world, world.events, |world.events|, now);
    BroadcastAcks(snapshotted, oracle, world, world.events, |world.events|, now);
    var walk := oracle.order(|told.log|, 0, told.states.Keys);
    SD.ResendIsReliable(told, oracle, config, walk, |walk|, now);
    var next := Resend(told, oracle, config, walk, |walk|, now);
    hide Snapshots, Broadcast, Resend;
    ReliableAcks(world, told, next);
    AckingTwice(world, h, snapshotted, told);
    AckingTwice(world, h, told, next);
  }

  /** Inputs are acknowledged honestly: every snapshot the host tries to send to a player's
      client in a tick carries the last input the simulation has consumed from that client,
      its highest, and no accepted input is queued. */
  lemma SnapshotsAckConsumedInputs(sim: Sim.Config, order: Order, actions: seq<Game.Action>, clients: set<ClientId>,
                                   h: State, oracle: Oracle, config: Config, now: Time, i: nat)
    requires LifeCycle.Sane(sim) && ValidOrder(order) && Replicas.Chunked(sim.rules.map_)
    requires var w := Game.Run(sim, order, actions + [Game.Tick]).world;
             var next := Tick(h, oracle, config, Shown(sim, order, w, clients), now);
             && |h.log| <= i < |next.log| && next.log[i].message.SnapshotMessage?
             && next.log[i].peer in Game.Run(sim, order, actions).world.playerByClient
    ensures var g := Game.Run(sim, order, actions + [Game.Tick]);
            var sent := Tick(h, oracle, config, Shown(sim, order, g.world, clients), now).log[i];
            && Game.AcksConsumed(g, sent.peer)
            && sent.message.snapshot.ackedInput == g.world.lastAccepted[sent.peer]
  {
    var g := Game.Run(sim, order, actions + [Game.Tick]);
    var world := Shown(sim, order, g.world, clients);
    TickAcks(h, oracle, config, world, now);
    Game.AckIsHighestConsumed(sim, order, actions, Tick(h, oracle, config, world, now).log[i].peer);
    hide Tick, Game.Run, Replicas.BuildSnapshot;
  }
}
