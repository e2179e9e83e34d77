/** The combat of every tick of every run: shots, flights and respawns, one after another. */
module CombatTick {
  import opened Basics
  import opened Replication
  import opened Simulation
  import opened Structure
  import opened TickEnd
  import opened LifeCycle
  import opened Hits
  import opened Flights
  import opened Shots
  import opened Game

  /** The world between the passes of a tick. */
  function AfterMoves(config: Config, order: Order, w: World): World {
    Simulation.ProcessInputs(config, order, Advance(config, w))
  }

  function AfterShots(config: Config, order: Order, w: World): World {
    ProcessWeaponWarmups(config, order, AfterMoves(config, order, w))
  }

  function AfterFlights(config: Config, order: Order, w: World): World {
    ProcessProjectiles(config, order, AfterShots(config, order, w))
  }

  ghost predicate LeavesRequests(op: Op) {
    !op.DoWarm? && !op.DoLaunch?
  }

  lemma DoKeepsRequests(config: Config, order: Order, w: World, op: Op)
    requires LeavesRequests(op)
    ensures Do(config, order, w, op).requests == w.requests
  {
    hide FirstHit, Stepped, Responding;
  }

  lemma {:induction false} ExecKeepsRequests(config: Config, order: Order, w: World, ops: seq<Op>, n: nat)
    requires n <= |ops| && (forall k :: 0 <= k < |ops| ==> LeavesRequests(ops[k]))
    ensures Exec(config, order, w, ops, n).requests == w.requests
  {
    hide *;
    ExecUnfold(config, order, w, ops, n);
    if n > 0 {
      ExecKeepsRequests(config, order, w, ops, n - 1);
      DoKeepsRequests(config, order, Exec(config, order, w, ops, n - 1), ops[n - 1]);
    }
  }

  lemma MovesAskNothing(config: Config, order: Order, w: World)
    requires w.requests == []
    ensures AfterMoves(config, order, w).requests == []
  {
    var start := Advance(config, w);
    ExecKeepsRequests(config, order, start, InputOps(start), |InputOps(start)|);
    var applied := Pass(config, order, start, InputOps(start));
    ExecKeepsRequests(config, order, applied, MoveOps(order, applied), |MoveOps(order, applied)|);
    hide Exec;
  }

  /** Between the passes the world is in shape and no list is half worked off. */
  lemma PassesAreClean(config: Config, order: Order, g: Game)
    requires Sane(config) && ValidOrder(order) && Inv(config, g)
    ensures var w := g.world;
            && Shaped(config, AfterMoves(config, order, w)) && AfterMoves(config, order, w).requests == []
            && Shaped(config, AfterShots(config, order, w)) && AfterShots(config, order, w).doomed == []
  {
    var w := g.world;
    var start := Advance(config, w);
    AdvanceKeepsShape(config, w);
    InputsKeepShape(config, order, start);
    WarmupsKeepShape(config, order, AfterMoves(config, order, w));
    MovesAskNothing(config, order, w);
    assert w.doomed == [] && w.requests == [];
    QuietIsFair(g.past, w, start);
    InputsAreFair(config, order, g.past, start);
    WarmupsAreFair(config, order, g.past, AfterMoves(config, order, w));
    hide Shaped, Fair, AllLive, TickDone, ProcessWeaponWarmups, Simulation.ProcessInputs;
  }

  /** One tick of combat, pass by pass: the shots due are fired; every confirmed hit is
      close and every arrow ends as it must; whoever is due comes back. */
  ghost predicate Fights(config: Config, moved: World, fired: World, landed: World, done: World, q: EntityId) {
    && ShotsFired(config, moved, fired)
    && CloseHits(config, fired, landed)
    && (q in Projectiles(fired) ==> Landed(config, fired, landed, q))
    && Stays(fired, landed, q) && (q !in fired.entities ==> q !in landed.entities)
    && HealthFalls(fired, landed, q)
    && done.entities.Keys == landed.entities.Keys
    && (q in landed.entities ==> ComesBack(config, landed.time, landed.entities[q], done.entities[q]))
  }

  /** Every tick of every run fights like that. */
  lemma EveryTickFights(config: Config, order: Order, actions: seq<Action>, q: EntityId)
    requires Sane(config) && ValidOrder(order)
    ensures var w := Run(config, order, actions).world;
            Fights(config, AfterMoves(config, order, w), AfterShots(config, order, w), AfterFlights(config, order, w),
                   TickFixed(config, order, w), q)
  {
    RunKeepsInv(config, order, actions);
    var g := Run(config, order, actions);
    PassesAreClean(config, order, g);
    assert NoHealing(config);
    hide *;
    WarmupPassShoots(config, order, AfterMoves(config, order, g.world));
    ProjectilePass(config, order, AfterShots(config, order, g.world), q);
    RespawnPassBringsBack(config, order, AfterFlights(config, order, g.world), q);
    Together(config, order, g.world, q);
  }

  lemma Together(config: Config, order: Order, w: World, q: EntityId)
    requires ShotsFired(config, AfterMoves(config, order, w), ProcessWeaponWarmups(config, order, AfterMoves(config, order, w)))
    requires var fired := AfterShots(config, order, w);
             var landed := ProcessProjectiles(config, order, fired);
             && CloseHits(config, fired, landed)
             && (q in Projectiles(fired) ==> Landed(config, fired, landed, q))
             && Stays(fired, landed, q) && (q !in fired.entities ==> q !in landed.entities)
             && HealthFalls(fired, landed, q)
    requires var landed := AfterFlights(config, order, w);
             var done := ProcessRespawns(config, order, landed);
             && done.entities.Keys == landed.entities.Keys
             && (q in landed.entities ==> ComesBack(config, landed.time, landed.entities[q], done.entities[q]))
    ensures Fights(config, AfterMoves(config, order, w), AfterShots(config, order, w), AfterFlights(config, order, w),
                   TickFixed(config, order, w), q)
  {
    TickUnfold(config, order, w);
    hide ShotsFired, CloseHits, Landed, Stays, HealthFalls, ComesBack, TickFixed, ProcessRespawns, ProcessProjectiles,
         ProcessWeaponWarmups, Simulation.ProcessInputs;
  }
}
