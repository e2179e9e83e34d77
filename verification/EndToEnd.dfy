/** The whole way: a running simulation under a running host, and what any client makes of
    the snapshots it is sent. */
module EndToEnd {
  import opened Basics
  import opened Replication
  import opened Host
  import Sim = Simulation
  import LifeCycle
  import Structure
  import opened Replicas
  import opened Mirrors
  import opened HostedGame
  import opened SnapshotTurns
  import Planner
  import Game
  import Protocol

  /** The last snapshot the host tried to send to a client. */
  ghost predicate LastTried(h: State, client: ClientId, s: Snapshot) {
    var tries := SnapshotTries(h.log, client);
    tries != [] && tries[|tries| - 1].message == SnapshotMessage(s)
  }

  lemma TurnTries(h: State, next: State, config: Config, world: World, c: ClientId, now: Time) returns (s: Snapshot)
    requires Turn(h, next, config, world, c, now) && now >= h.states[c].nextSendAt
    ensures LastTried(next, c, s) && Fits(s, h, config, world, c)
  {
    var u := SnapshotTries(next.log, c);
    s := u[|u| - 1].message.snapshot;
    hide SnapshotTries, Fits;
  }

  lemma FittingIsPlanned(sim: Sim.Config, order: Order, w: Sim.World, clients: set<ClientId>, config: Config, h: State, c: ClientId, s: Snapshot)
    requires Chunked(sim.rules.map_) && c in clients && c in h.states
    requires Fits(s, h, config, HostedGame.Shown(sim, order, w, clients), c)
    ensures s.entities == Planner.Kept(config.planner, c, BuildSnapshot(sim, order, w, c, 0, 0).entities)
    ensures s.serverTick == w.tick && s.serverTime == w.time && s.ackedInput == (if c in w.lastAccepted then w.lastAccepted[c] else 0)
  {
    hide BuildSnapshot, Planner.Kept;
  }

  lemma KeptIsTaken(w: Sim.World, c: ClientId, config: Planner.Config, all: Snapshot, s: Snapshot)
    requires TakenFrom(w, c, all) && s.entities == Planner.Kept(config, c, all.entities) && s.serverTime == w.time
    ensures TakenFrom(w, c, s)
  {
    Planner.PlanSelects(config, c, all.entities);
    hide Planner.Kept, StateOf;
    forall k | 0 <= k < |s.entities|
      ensures s.entities[k].Id() in w.entities && s.entities[k] == StateOf(c, s.entities[k].Id(), w.entities[s.entities[k].Id()])
    {
      assert s.entities[k] in s.entities;
      assert s.entities[k] in all.entities;
    }
  }

  /** A plan names only what it was given, and within the budget all of it. */
  lemma PlanNames(config: Planner.Config, c: ClientId, all: Snapshot, s: Snapshot, id: EntityId)
    requires DistinctIds(all.entities) && s.entities == Planner.Kept(config, c, all.entities)
    ensures Names(s, id) ==> Names(all, id)
    ensures config.maxEntities == 0 || |all.entities| <= config.maxEntities ==> (Names(all, id) ==> Names(s, id))
  {
    Planner.PlanSelects(config, c, all.entities);
    if Names(all, id) && (config.maxEntities == 0 || |all.entities| <= config.maxEntities) {
      var k :| 0 <= k < |all.entities| && all.entities[k].Id() == id;
      Planner.PlanKeepsAll(config, c, all.entities, all.entities[k]);
    }
    hide Planner.Kept;
    if Names(s, id) {
      var k :| 0 <= k < |s.entities| && s.entities[k].Id() == id;
      assert s.entities[k] in s.entities;
      assert s.entities[k] in all.entities;
    }
  }

  /** In every tick of every hosted run, whoever's turn it is is sent a snapshot that, once
      applied by a client with any past, makes it show what the planner has left of its
      sight just as the simulation has it, and nothing else but what the client owns; and
      within the planner's budget that is its whole sight. */
  lemma ServedClientsMirrorTheGame(sim: Sim.Config, order: Order, played: seq<Game.Action>, clients: set<ClientId>,
                                   config: Config, oracle: Oracle, actions: seq<Protocol.Action>, now: Time, c: ClientId,
                                   client: Sim.Config, walk: Order, v: Sim.World, id: EntityId) returns (s: Snapshot)
    requires LifeCycle.Sane(sim) && ValidOrder(order) && ValidOrder(walk) && Chunked(sim.rules.map_)
    requires Protocol.Legal(oracle, actions) && c in clients
    requires var h := Protocol.Run(config, oracle, actions).host;
             c in h.clients && c in h.states && now >= h.states[c].nextSendAt
    ensures var w := Game.Run(sim, order, played).world;
            var all := BuildSnapshot(sim, order, w, c, 0, 0).entities;
            && LastTried(Tick(Protocol.Run(config, oracle, actions).host, oracle, config, HostedGame.Shown(sim, order, w, clients), now), c, s)
            && MirrorsAll(client, w, v, ApplySnapshot(client, walk, v, s, c), c, s, id)
            && (Names(s, id) ==> id in w.entities && Visible(sim, w, c, id))
            && (config.planner.maxEntities == 0 || |all| <= config.planner.maxEntities ==>
                  (Names(s, id) <==> id in w.entities && Visible(sim, w, c, id)))
  {
    var w := Game.Run(sim, order, played).world;
    var world := HostedGame.Shown(sim, order, w, clients);
    var h := Protocol.Run(config, oracle, actions).host;
    ReachableIsShaped(sim, order, played);
    ShownIsServerWorld(sim, order, played, clients);
    hide *;
    EveryTurnIsTaken(config, oracle, actions, world, now, c);
    s := TurnTries(h, Tick(h, oracle, config, world, now), config, world, c, now);
    var all := BuildSnapshot(sim, order, w, c, 0, 0);
    FittingIsPlanned(sim, order, w, clients, config, h, c, s);
    BuiltIsTaken(sim, order, w, c, 0, 0);
    KeptIsTaken(w, c, config.planner, all, s);
    TakenIsDistinct(w, c, all);
    PlanNames(config.planner, c, all, s, id);
    TakenIsMirrored(sim, client, walk, w, v, c, s, id);
  }

  lemma TakenIsDistinct(w: Sim.World, c: ClientId, s: Snapshot)
    requires TakenFrom(w, c, s)
    ensures DistinctIds(s.entities)
  {
  }

  lemma ReachableIsShaped(sim: Sim.Config, order: Order, played: seq<Game.Action>)
    requires LifeCycle.Sane(sim) && ValidOrder(order)
    ensures Structure.Shaped(sim, Game.Run(sim, order, played).world)
  {
    Game.RunKeepsInv(sim, order, played);
    hide Game.Run;
  }
}
