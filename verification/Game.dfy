/** Whole runs of a server simulation: logins, inputs, ticks and drained events in any
    order, and what holds after every one of them. */
module Game {
  import opened Basics
  import opened Replication
  import opened Events
  import opened Motion
  import opened Simulation
  import opened Structure
  import opened LifeCycle
  import opened TickEnd
  import opened Journal
  import opened Hits
  import opened Arrows

  /** The world with what a run has left behind: events drained so far, inputs accepted,
      inputs handed to the movement code by ticks, and each client's login sequence. */
  datatype Game = Game(
    world: World, past: seq<DomainEvent>, accepted: seq<Input>, consumed: seq<Input>, logins: map<ClientId, Sequence>)
  {
    function Journal(): seq<DomainEvent> { past + world.events }
  }

  datatype Action =
    | LoginAs(client: ClientId, sequence: Sequence)
    | InputFrom(input: Input)
    | Tick
    | Drain

  const NEW_GAME := Game(NEW_WORLD, [], [], [], map[])

  /** The inputs among some operations, in order. */
  function InputsOf(ops: seq<Op>): seq<Input> {
    if ops == [] then []
    else InputsOf(ops[..|ops| - 1]) + (if ops[|ops| - 1].DoInput? then [ops[|ops| - 1].input] else [])
  }

  function Step(config: Config, order: Order, g: Game, action: Action): Game {
    match action
    case LoginAs(client, sequence) =>
      var next := Login(config, g.world, client, sequence);
      g.(world := next,
         logins := if next.playerByClient == g.world.playerByClient then g.logins else g.logins[client := sequence])
    case InputFrom(input) =>
      g.(world := Submit(g.world, input), accepted := if Admissible(g.world, input) then g.accepted + [input] else g.accepted)
    case Tick =>
      g.(world := TickFixed(config, order, g.world), consumed := g.consumed + InputsOf(TickOps(config, order, g.world)))
    case Drain =>
      g.(world := g.world.(events := []), past := g.past + g.world.events)
  }

  function Run(config: Config, order: Order, actions: seq<Action>): Game {
    if actions == [] then NEW_GAME
    else Step(config, order, Run(config, order, actions[..|actions| - 1]), actions[|actions| - 1])
  }

  // --- inputs ---

  function LastOf(inputs: seq<Input>, client: ClientId): Option<Sequence> {
    if inputs == [] then None
    else if inputs[|inputs| - 1].client == client then Some(inputs[|inputs| - 1].sequence)
    else LastOf(inputs[..|inputs| - 1], client)
  }

  ghost predicate Increasing(inputs: seq<Input>) {
    forall i, j :: 0 <= i < j < |inputs| && inputs[i].client == inputs[j].client ==> inputs[i].sequence < inputs[j].sequence
  }

  ghost predicate LastIsHighest(g: Game) {
    && g.world.lastAccepted.Keys == g.world.playerByClient.Keys == g.logins.Keys
    && (forall c :: c in g.world.lastAccepted ==>
          g.world.lastAccepted[c] == (match LastOf(g.accepted, c) case Some(s) => s case None => g.logins[c]))
    && (forall k :: 0 <= k < |g.accepted| ==>
          g.accepted[k].client in g.world.lastAccepted && g.accepted[k].sequence <= g.world.lastAccepted[g.accepted[k].client])
  }

  ghost predicate InputsOk(g: Game) {
    && g.accepted == g.consumed + g.world.pending
    && Increasing(g.accepted)
    && LastIsHighest(g)
  }

  // --- the invariant ---

  ghost predicate Inv(config: Config, g: Game) {
    && Shaped(config, g.world)
    && AllLive(config, g.world)
    && TickDone(config, g.world)
    && Tells(config, g.past, g.world)
    && Fair(g.past, g.world)
    && Paced(config, g.world)
    && InputsOk(g)
  }

  // --- commands and ticks ---

  /** Operations leave the command side of the world alone, but for clearing the queue. */
  ghost predicate SameCommands(w: World, next: World) {
    && next.lastAccepted == w.lastAccepted && next.playerByClient == w.playerByClient && next.tick == w.tick
    && (next.pending == w.pending || next.pending == [])
  }

  lemma DoKeepsCommands(config: Config, order: Order, w: World, op: Op)
    ensures SameCommands(w, Do(config, order, w, op))
    ensures op.DoClearPending? ==> Do(config, order, w, op).pending == []
  {
    hide Responding, WarmupEvents, Stepped, MoveEvents, Cooled, FireEvents, FireRequests, FirstHit, Hurt, HurtEvents, Drifted, OffMap, Revived;
  }

  lemma {:induction false} ExecKeepsCommands(config: Config, order: Order, w: World, ops: seq<Op>, n: nat)
    requires n <= |ops|
    ensures SameCommands(w, Exec(config, order, w, ops, n))
    ensures (exists k :: 0 <= k < n && ops[k].DoClearPending?) ==> Exec(config, order, w, ops, n).pending == []
  {
    hide Do;
    if n > 0 {
      ExecKeepsCommands(config, order, w, ops, n - 1);
      DoKeepsCommands(config, order, Exec(config, order, w, ops, n - 1), ops[n - 1]);
    }
  }

  lemma {:induction false} InputsOfAppend(a: seq<Op>, b: seq<Op>)
    ensures InputsOf(a + b) == InputsOf(a) + InputsOf(b)
  {
    if b == [] {
      assert a + b == a;
    } else {
      InputsOfAppend(a, b[..|b| - 1]);
      assert (a + b)[..|a + b| - 1] == a + b[..|b| - 1];
    }
  }

  lemma {:induction false} NoInputsOf(ops: seq<Op>)
    requires forall k :: 0 <= k < |ops| ==> !ops[k].DoInput?
    ensures InputsOf(ops) == []
  {
    if ops != [] {
      NoInputsOf(ops[..|ops| - 1]);
    }
  }

  lemma {:induction false} InputsOfInputs(inputs: seq<Input>, ops: seq<Op>)
    requires |ops| == |inputs| && (forall k :: 0 <= k < |ops| ==> ops[k] == DoInput(inputs[k]))
    ensures InputsOf(ops) == inputs
  {
    if inputs != [] {
      InputsOfInputs(inputs[..|inputs| - 1], ops[..|ops| - 1]);
      assert inputs == inputs[..|inputs| - 1] + [inputs[|inputs| - 1]];
    }
  }

  /** A tick hands exactly the queued inputs to the movement code, in order, once. */
  lemma TickConsumesPending(config: Config, order: Order, w: World)
    ensures InputsOf(TickOps(config, order, w)) == w.pending
  {
    var start := Advance(config, w);
    var applied := Pass(config, order, start, InputOps(start));
    var moved := Pass(config, order, applied, MoveOps(order, applied));
    var warmed := Pass(config, order, moved, WarmOps(order, moved));
    var fired := Pass(config, order, warmed, LaunchOps(warmed));
    var flown := Pass(config, order, fired, FlyOps(order, fired));
    var landed := Pass(config, order, flown, DestroyOps(flown));
    var rest := MoveOps(order, applied) + WarmOps(order, moved) + LaunchOps(warmed)
                + FlyOps(order, fired) + DestroyOps(flown) + RespawnOps(order, landed);
    hide Pass;
    assert TickOps(config, order, w) == InputOps(start) + rest;
    NoInputsOf(rest);
    var inputs := seq(|w.pending|, k requires 0 <= k < |w.pending| => DoInput(w.pending[k]));
    InputsOfInputs(w.pending, inputs);
    assert InputOps(start) == inputs + [DoClearPending];
    NoInputsOf([DoClearPending]);
    InputsOfAppend(inputs, [DoClearPending]);
    InputsOfAppend(InputOps(start), rest);
  }

  lemma TickKeepsCommands(config: Config, order: Order, w: World)
    ensures var next := TickFixed(config, order, w);
            && next.lastAccepted == w.lastAccepted && next.playerByClient == w.playerByClient
            && next.pending == [] && next.tick == w.tick + 1 && next.time == w.time + config.rules.tickMs
  {
    var ops := TickOps(config, order, w);
    TickIsOps(config, order, w);
    ClearsPending(config, order, w);
    ExecKeepsCommands(config, order, Advance(config, w), ops, |ops|);
    ExecKeepsTime(config, order, Advance(config, w), ops, |ops|);
    hide Exec, TickOps, TickFixed;
  }

  lemma ClearsPending(config: Config, order: Order, w: World)
    ensures exists k :: 0 <= k < |TickOps(config, order, w)| && TickOps(config, order, w)[k].DoClearPending?
  {
    hide Pass, MoveOps, WarmOps, LaunchOps, FlyOps, DestroyOps, RespawnOps;
    assert TickOps(config, order, w)[|w.pending|] == DoClearPending;
  }

  lemma {:induction false} ExecKeepsTime(config: Config, order: Order, w: World, ops: seq<Op>, n: nat)
    requires n <= |ops|
    ensures Exec(config, order, w, ops, n).time == w.time
  {
    if n > 0 {
      ExecKeepsTime(config, order, w, ops, n - 1);
      DoKeepsTime(config, order, Exec(config, order, w, ops, n - 1), ops[n - 1]);
      hide Do;
    }
  }

  lemma DoKeepsTime(config: Config, order: Order, w: World, op: Op)
    ensures Do(config, order, w, op).time == w.time
  {
    hide Responding, WarmupEvents, Stepped, MoveEvents, Cooled, FireEvents, FireRequests, FirstHit, Hurt, HurtEvents, Drifted, OffMap, Revived;
  }

  lemma TickKeepsInputs(config: Config, order: Order, g: Game)
    requires InputsOk(g)
    ensures InputsOk(Step(config, order, g, Tick))
  {
    TickConsumesPending(config, order, g.world);
    TickKeepsCommands(config, order, g.world);
    hide TickFixed, TickOps, Increasing, LastOf;
  }

  lemma SubmitKeepsInputs(config: Config, order: Order, g: Game, input: Input)
    requires InputsOk(g)
    ensures InputsOk(Step(config, order, g, InputFrom(input)))
  {
    var next := Step(config, order, g, InputFrom(input));
    if Admissible(g.world, input) {
      assert next.accepted[..|next.accepted| - 1] == g.accepted;
      assert forall c :: c != input.client ==> LastOf(next.accepted, c) == LastOf(g.accepted, c);
      assert LastOf(next.accepted, input.client) == Some(input.sequence);
    }
  }

  lemma {:induction false} NobodyYet(inputs: seq<Input>, client: ClientId)
    requires forall k :: 0 <= k < |inputs| ==> inputs[k].client != client
    ensures LastOf(inputs, client) == None
  {
    if inputs != [] {
      NobodyYet(inputs[..|inputs| - 1], client);
    }
  }

  lemma LoginKeepsInputs(config: Config, order: Order, g: Game, client: ClientId, sequence: Sequence)
    requires InputsOk(g)
    ensures InputsOk(Step(config, order, g, LoginAs(client, sequence)))
  {
    if client !in g.world.playerByClient && |g.world.playerByClient| < config.maxPlayers {
      NobodyYet(g.accepted, client);
      var next := Step(config, order, g, LoginAs(client, sequence));
      assert client in next.world.playerByClient;
      hide NewPlayer, Spawn, LastOf;
    }
  }

  // --- between ticks ---

  /** Aloft and Settled depend only on time and entities. */
  lemma LoginKeepsTickDone(config: Config, w: World, client: ClientId, sequence: Sequence)
    requires Shaped(config, w) && TickDone(config, w)
    ensures TickDone(config, Login(config, w, client, sequence))
  {
    var next := Login(config, w, client, sequence);
    hide Shaped, Aloft, Settled, OffMap, Spawn;
    forall id
      ensures Aloft(config, next, id) && Settled(next, id)
    {
      assert Aloft(config, w, id) && Settled(w, id);
      LoginKeepsOne(config, w, client, sequence, id);
    }
  }

  lemma LoginKeepsOne(config: Config, w: World, client: ClientId, sequence: Sequence, id: EntityId)
    requires Aloft(config, w, id) && Settled(w, id)
    ensures Aloft(config, Login(config, w, client, sequence), id) && Settled(Login(config, w, client, sequence), id)
  {
    hide OffMap, Spawn;
  }

  lemma SameWorldIsDone(config: Config, w: World, next: World)
    requires TickDone(config, w)
    requires next.entities == w.entities && next.time == w.time && next.requests == w.requests && next.doomed == w.doomed
    ensures TickDone(config, next)
  {
    forall id
      ensures Aloft(config, next, id) && Settled(next, id)
    {
      assert Aloft(config, w, id) && Settled(w, id);
      hide OffMap;
    }
    hide Aloft, Settled;
  }

  // --- steps ---

  lemma LoginKeepsInv(config: Config, order: Order, g: Game, client: ClientId, sequence: Sequence)
    requires Sane(config) && Inv(config, g)
    ensures Inv(config, Step(config, order, g, LoginAs(client, sequence)))
  {
    LoginKeepsInputs(config, order, g, client, sequence);
    assert g.world.requests == [];
    hide Shaped, AllLive, TickDone, Tells, Fair, Paced, InputsOk, Login, Sane;
    LoginKeepsShape(config, g.world, client, sequence);
    LoginKeepsLives(config, g.world, client, sequence);
    LoginKeepsTickDone(config, g.world, client, sequence);
    LoginTells(config, g.past, g.world, client, sequence);
    LoginIsFair(config, g.past, g.world, client, sequence);
    LoginIsPaced(config, g.world, client, sequence);
  }

  lemma SubmitFacts(w: World, input: Input)
    ensures var next := Submit(w, input);
            next.entities == w.entities && next.time == w.time && next.events == w.events && next.nextId == w.nextId
            && next.requests == w.requests && next.doomed == w.doomed && next.playerByClient == w.playerByClient
  {
  }

  lemma ListsOfSame(config: Config, w: World, next: World)
    requires Shaped(config, w) && next.entities == w.entities && next.nextId == w.nextId
    requires next.requests == w.requests && next.doomed == w.doomed && next.playerByClient == w.playerByClient
    ensures Shaped(config, next)
  {
    ListsKeepShape(config, w, next);
  }

  lemma FewerArrowsSame(w: World, next: World)
    requires next.entities == w.entities && next.nextId == w.nextId && next.doomed == w.doomed
    ensures FewerArrows(w, next)
  {
  }

  lemma SubmitKeepsInv(config: Config, order: Order, g: Game, input: Input)
    requires Inv(config, g)
    ensures Inv(config, Step(config, order, g, InputFrom(input)))
  {
    SubmitKeepsInputs(config, order, g, input);
    hide Shaped, AllLive, TickDone, Tells, Fair, Paced, InputsOk, FewerArrows;
    var next := Submit(g.world, input);
    SubmitFacts(g.world, input);
    hide Submit, Admissible;
    ListsOfSame(config, g.world, next);
    SameEntitiesKeepLives(config, g.world, next);
    SameWorldIsDone(config, g.world, next);
    SameWorldTells(config, g.past, g.world, next);
    FewerArrowsSame(g.world, next);
    QuietIsFair(g.past, g.world, next);
    ListsArePaced(config, g.world, next);
  }

  lemma DrainKeepsJournal(config: Config, past: seq<DomainEvent>, w: World)
    requires Tells(config, past, w) && Fair(past, w)
    ensures var next := w.(events := []);
            Tells(config, past + w.events, next) && Fair(past + w.events, next)
  {
    var next := w.(events := []);
    assert past + w.events + next.events == past + w.events;
    assert PlayerViews(next) == PlayerViews(w) && DefeatedIds(next) == DefeatedIds(w);
    assert Projectiles(next) == Projectiles(w);
    hide PlayerViews, DefeatedIds, Fold, MovesChain, NetDeaths, IdsOnce, OneHitEach, HitsAreFair, ShotBy;
  }

  lemma DrainKeepsWorld(config: Config, w: World)
    requires Shaped(config, w) && AllLive(config, w) && TickDone(config, w) && Paced(config, w)
    ensures var next := w.(events := []);
            Shaped(config, next) && AllLive(config, next) && TickDone(config, next) && Paced(config, next)
  {
    var next := w.(events := []);
    hide Shaped, AllLive, TickDone, Paced;
    ListsOfSame(config, w, next);
    SameEntitiesKeepLives(config, w, next);
    SameWorldIsDone(config, w, next);
    ListsArePaced(config, w, next);
  }

  lemma DrainKeepsInputs(config: Config, order: Order, g: Game)
    requires InputsOk(g)
    ensures InputsOk(Step(config, order, g, Drain))
  {
    hide Increasing, LastOf;
  }

  lemma DrainKeepsInv(config: Config, order: Order, g: Game)
    requires Inv(config, g)
    ensures Inv(config, Step(config, order, g, Drain))
  {
    DrainKeepsInputs(config, order, g);
    hide Shaped, AllLive, TickDone, Tells, Fair, Paced, InputsOk;
    DrainKeepsJournal(config, g.past, g.world);
    DrainKeepsWorld(config, g.world);
  }

  lemma TickKeepsStory(config: Config, order: Order, past: seq<DomainEvent>, w: World)
    requires Sane(config) && Shaped(config, w) && AllLive(config, w) && Tells(config, past, w)
    ensures AllLive(config, TickFixed(config, order, w)) && Tells(config, past, TickFixed(config, order, w))
  {
    var start := Advance(config, w);
    AdvanceKeepsShape(config, w);
    AdvanceKeepsLives(config, w);
    SameWorldTells(config, past, w, start);
    var ops := TickOps(config, order, w);
    TickIsOps(config, order, w);
    hide Shaped, AllLive, Tells, Exec, TickFixed, TickOps, Sane, Advance;
    ExecKeepsLives(config, order, start, ops, |ops|);
    ExecTells(config, order, past, start, ops, |ops|);
  }

  lemma TickKeepsInv(config: Config, order: Order, g: Game)
    requires Sane(config) && ValidOrder(order) && Inv(config, g)
    ensures Inv(config, Step(config, order, g, Tick))
  {
    TickKeepsInputs(config, order, g);
    assert g.world.requests == [] && g.world.doomed == [];
    hide Shaped, AllLive, TickDone, Tells, Fair, Paced, InputsOk, TickFixed, Sane;
    TickKeepsShape(config, order, g.world);
    TickKeepsStory(config, order, g.past, g.world);
    TickIsDone(config, order, g.world);
    TickIsFair(config, order, g.past, g.world);
    TickIsPaced(config, order, g.world);
  }

  lemma StepKeepsInv(config: Config, order: Order, g: Game, action: Action)
    requires Sane(config) && ValidOrder(order) && Inv(config, g)
    ensures Inv(config, Step(config, order, g, action))
  {
    hide Inv, Step;
    match action {
      case LoginAs(client, sequence) => LoginKeepsInv(config, order, g, client, sequence);
      case InputFrom(input) => SubmitKeepsInv(config, order, g, input);
      case Tick => TickKeepsInv(config, order, g);
      case Drain => DrainKeepsInv(config, order, g);
    }
  }

  lemma NewGameInv(config: Config)
    ensures Inv(config, NEW_GAME)
  {
    NewWorldTells(config);
    NewWorldIsQuiet(config);
    hide Tells, Fair, Paced, TickDone, AllLive;
  }

  lemma NewWorldTells(config: Config)
    ensures Tells(config, [], NEW_WORLD)
  {
    assert PlayerViews(NEW_WORLD) == map[];
    assert DefeatedIds(NEW_WORLD) == {};
    assert [] + NEW_WORLD.events == [];
  }

  lemma NewWorldIsQuiet(config: Config)
    ensures Fair([], NEW_WORLD) && Paced(config, NEW_WORLD) && TickDone(config, NEW_WORLD) && AllLive(config, NEW_WORLD)
  {
    assert [] + NEW_WORLD.events == [];
  }

  lemma {:induction false} RunKeepsInv(config: Config, order: Order, actions: seq<Action>)
    requires Sane(config) && ValidOrder(order)
    ensures Inv(config, Run(config, order, actions))
  {
    if actions == [] {
      NewGameInv(config);
    } else {
      RunKeepsInv(config, order, actions[..|actions| - 1]);
      hide Inv, Step;
      StepKeepsInv(config, order, Run(config, order, actions[..|actions| - 1]), actions[|actions| - 1]);
    }
  }

  // --- the main results ---

  ghost predicate Living(config: Config, w: World, id: EntityId) {
    IsPlayer(w, id) ==>
      var p := w.entities[id].player.value;
      && 0 <= p.health <= p.maxHealth == config.maxHealth
      && (p.defeated <==> p.health == 0)
      && (p.defeated ==> w.time < p.respawnAt <= w.time + config.respawnDelay)
  }

  lemma PlayerIsLiving(config: Config, g: Game, id: EntityId)
    requires Inv(config, g)
    ensures Living(config, g.world, id)
  {
    assert TickDone(config, g.world) && Settled(g.world, id);
    if IsPlayer(g.world, id) {
      assert Lives(config, g.world.time, g.world.entities[id]);
    }
  }

  /** The combat life cycle, in every reachable state: health within bounds, defeated
      exactly at zero, a respawn due within the delay; deaths minus respawns are those now
      defeated; ids are used once; a projectile hits at most once and never its owner. */
  lemma CombatLifeCycle(config: Config, order: Order, actions: seq<Action>)
    requires Sane(config) && ValidOrder(order)
    ensures var g := Run(config, order, actions);
            && (forall id :: Living(config, g.world, id))
            && NetDeaths(g.Journal()) == |DefeatedIds(g.world)|
            && IdsOnce(g.Journal(), g.world.nextId)
            && OneHitEach(g.Journal())
            && HitsAreFair(g.Journal())
  {
    RunKeepsInv(config, order, actions);
    var g := Run(config, order, actions);
    hide Run, Living, NetDeaths, IdsOnce, OneHitEach, HitsAreFair;
    forall id
      ensures Living(config, g.world, id)
    {
      PlayerIsLiving(config, g, id);
    }
  }

  /** The event stream is a complete journal: replaying all of it gives every player's
      view, and every recorded move starts where the journal says the player was. */
  lemma JournalIsComplete(config: Config, order: Order, actions: seq<Action>)
    requires Sane(config) && ValidOrder(order)
    ensures var g := Run(config, order, actions);
            && Fold(config.maxHealth, map[], g.Journal()) == PlayerViews(g.world)
            && MovesChain(config.maxHealth, g.Journal())
  {
    RunKeepsInv(config, order, actions);
  }

  /** The arrow bound and with it a bound on all entities, in every reachable state. */
  lemma ArrowBound(config: Config, order: Order, actions: seq<Action>, owner: EntityId)
    requires Sane(config) && ValidOrder(order)
    ensures var w := Run(config, order, actions).world;
            && |ArrowsOf(w, owner)| <= Bound(config)
            && |w.entities| <= config.maxPlayers * (1 + Bound(config))
  {
    RunKeepsInv(config, order, actions);
    var g := Run(config, order, actions);
    hide Run, Shaped, AllLive, Tells, Fair, Paced, InputsOk, Aloft, Settled, Bound;
    FewArrowsEach(config, g.world, owner);
    FewEntities(config, g.world);
  }

  /** Players stay on the map and within the speed limit; projectiles in the air are on
      the map as well. */
  lemma EverythingIsOnTheMap(config: Config, order: Order, actions: seq<Action>, id: EntityId)
    requires Sane(config) && ValidOrder(order)
    requires id in Run(config, order, actions).world.entities
    ensures var e := Run(config, order, actions).world.entities[id];
            && InMap(config.rules.map_, e.body.x, e.body.y)
            && (e.player.Some? ==> SpeedOk(config.rules, e.body))
  {
    RunKeepsInv(config, order, actions);
    var g := Run(config, order, actions);
    EntityOkUnfold(config, g.world, id);
    assert Lives(config, g.world.time, g.world.entities[id]);
    assert TickDone(config, g.world) && Aloft(config, g.world, id);
    hide Run, Shaped, Tells, Fair, Paced, InputsOk;
  }

  /** Inputs are consumed once: accepted sequences rise per client, and what has been
      accepted is what ticks have consumed, in order, followed by what is still queued. */
  lemma InputsAreConsumedOnce(config: Config, order: Order, actions: seq<Action>)
    requires Sane(config) && ValidOrder(order)
    ensures var g := Run(config, order, actions);
            Increasing(g.accepted) && g.accepted == g.consumed + g.world.pending
  {
    RunKeepsInv(config, order, actions);
  }

  /** What the acknowledged sequence of a client is when nothing is queued. */
  ghost predicate AcksConsumed(g: Game, client: ClientId) {
    && g.world.pending == []
    && g.accepted == g.consumed
    && client in g.world.lastAccepted && client in g.logins
    && g.world.lastAccepted[client] == (match LastOf(g.consumed, client) case Some(s) => s case None => g.logins[client])
    && (forall k :: 0 <= k < |g.consumed| && g.consumed[k].client == client ==>
          g.consumed[k].sequence <= g.world.lastAccepted[client])
  }

  lemma NothingQueuedAcksConsumed(g: Game, client: ClientId)
    requires InputsOk(g) && g.world.pending == [] && client in g.world.playerByClient
    ensures AcksConsumed(g, client)
  {
    assert client in g.world.lastAccepted.Keys;
    hide LastOf, Increasing;
  }

  lemma InvInputsOk(config: Config, g: Game)
    requires Inv(config, g)
    ensures InputsOk(g)
  {
  }

  /** The acknowledged input of a snapshot taken right after a tick: the client's last
      consumed input, which is its highest, or its login sequence; nothing is queued. */
  lemma AckIsHighestConsumed(config: Config, order: Order, actions: seq<Action>, client: ClientId)
    requires Sane(config) && ValidOrder(order)
    requires client in Run(config, order, actions).world.playerByClient
    ensures AcksConsumed(Run(config, order, actions + [Tick]), client)
  {
    var before := Run(config, order, actions);
    assert (actions + [Tick])[..|actions|] == actions;
    RunKeepsInv(config, order, actions + [Tick]);
    TickKeepsCommands(config, order, before.world);
    InvInputsOk(config, Run(config, order, actions + [Tick]));
    hide Inv, InputsOk, AcksConsumed, TickFixed, TickOps;
    NothingQueuedAcksConsumed(Run(config, order, actions + [Tick]), client);
  }
}
