/** Replay predicts the server: a client that applies the server's snapshot and replays its
    unacknowledged inputs stands exactly where the server will put it. */
module Prediction {
  import opened Basics
  import opened Replication
  import opened Motion
  import opened Simulation
  import opened Structure
  import opened LifeCycle
  import opened Replicas
  import opened Stance
  import opened Game

  function TrackAll(rules: Rules, s: Stance, inputs: seq<Input>, n: nat): Stance
    requires n <= |inputs|
  {
    if n == 0 then s else Tracked(rules, TrackAll(rules, s, inputs, n - 1), inputs[n - 1].frame)
  }

  // --- the server, over a window of ticks ---

  /** Commands that may arrive between two ticks. */
  function Prepared(config: Config, order: Order, g: Game, commands: seq<Action>, n: nat): Game
    requires n <= |commands|
  {
    if n == 0 then g else Step(config, order, Prepared(config, order, g, commands, n - 1), commands[n - 1])
  }

  /** n rounds, each some commands and then a tick. */
  function Played(config: Config, order: Order, g: Game, rounds: seq<seq<Action>>, n: nat): Game
    requires n <= |rounds|
    decreases n, 0
  {
    if n == 0 then g
    else Step(config, order, Ready(config, order, g, rounds, n - 1), Tick)
  }

  /** The game when round n is about to tick. */
  function Ready(config: Config, order: Order, g: Game, rounds: seq<seq<Action>>, n: nat): Game
    requires n < |rounds|
    decreases n, 1
  {
    Prepared(config, order, Played(config, order, g, rounds, n), rounds[n], |rounds[n]|)
  }

  /** In round k the client has exactly its k-th input queued and its player does not die. */
  ghost predicate RoundOk(config: Config, order: Order, g: Game, rounds: seq<seq<Action>>, client: ClientId, id: EntityId, inputs: seq<Input>, k: nat)
    requires k < |rounds| == |inputs|
  {
    var ready := Ready(config, order, g, rounds, k).world;
    && (forall j :: 0 <= j < |rounds[k]| ==> !rounds[k][j].Tick?)
    && FilterBy(ready.pending, client) == [inputs[k]]
    && Survives(ready, TickFixed(config, order, ready), id)
  }

  ghost predicate At(w: World, client: ClientId, id: EntityId, s: Stance) {
    Stands(w, id, s) && client in w.playerByClient && w.playerByClient[client] == id
  }

  lemma LoginKeepsStance(config: Config, w: World, client: ClientId, sequence: Sequence, own: ClientId, id: EntityId, s: Stance)
    requires w.nextId !in w.entities && At(w, own, id, s)
    ensures At(Login(config, w, client, sequence), own, id, s)
  {
    hide NewPlayer, Spawn;
  }

  lemma SameEntitiesKeepStance(w: World, next: World, own: ClientId, id: EntityId, s: Stance)
    requires At(w, own, id, s) && next.entities == w.entities && next.playerByClient == w.playerByClient
    ensures At(next, own, id, s)
  {
  }

  lemma CommandKeepsStance(config: Config, order: Order, g: Game, action: Action, client: ClientId, id: EntityId, s: Stance)
    requires Inv(config, g) && !action.Tick? && At(g.world, client, id, s)
    ensures At(Step(config, order, g, action).world, client, id, s)
  {
    hide *;
    InvShaped(config, g);
    NewIdIsFree(config, g.world);
    StepCommand(config, order, g, action);
    match action {
      case LoginAs(c, sequence) => LoginKeepsStance(config, g.world, c, sequence, client, id, s);
      case InputFrom(input) =>
        SubmitFacts(g.world, input);
        SameEntitiesKeepStance(g.world, Submit(g.world, input), client, id, s);
      case Drain => SameEntitiesKeepStance(g.world, g.world.(events := []), client, id, s);
    }
  }

  lemma StepCommand(config: Config, order: Order, g: Game, action: Action)
    requires !action.Tick?
    ensures var next := Step(config, order, g, action).world;
            match action
            case LoginAs(c, sequence) => next == Login(config, g.world, c, sequence)
            case InputFrom(input) => next == Submit(g.world, input)
            case _ => next == g.world.(events := [])
  {
  }

  lemma {:induction false} PreparedKeepsStance(config: Config, order: Order, g: Game, commands: seq<Action>, n: nat, client: ClientId, id: EntityId, s: Stance)
    requires Sane(config) && ValidOrder(order) && Inv(config, g) && n <= |commands|
    requires forall j :: 0 <= j < |commands| ==> !commands[j].Tick?
    requires At(g.world, client, id, s)
    ensures var next := Prepared(config, order, g, commands, n);
            Inv(config, next) && At(next.world, client, id, s)
  {
    hide Inv, At, Sane, Step;
    if n > 0 {
      PreparedKeepsStance(config, order, g, commands, n - 1, client, id, s);
      var before := Prepared(config, order, g, commands, n - 1);
      CommandKeepsStance(config, order, before, commands[n - 1], client, id, s);
      StepKeepsInv(config, order, before, commands[n - 1]);
    }
  }

  lemma StepTick(config: Config, order: Order, g: Game)
    ensures Step(config, order, g, Tick).world == TickFixed(config, order, g.world)
  {
  }

  lemma AtFrom(w: World, next: World, client: ClientId, id: EntityId, s: Stance)
    requires client in w.playerByClient && w.playerByClient[client] == id && next.playerByClient == w.playerByClient && Stands(next, id, s)
    ensures At(next, client, id, s)
  {
  }

  lemma RoundTracks(config: Config, order: Order, ready: Game, client: ClientId, id: EntityId, s: Stance, input: Input)
    requires Sane(config) && ValidOrder(order) && Inv(config, ready) && At(ready.world, client, id, s)
    requires FilterBy(ready.world.pending, client) == [input]
    requires Survives(ready.world, TickFixed(config, order, ready.world), id)
    ensures var next := Step(config, order, ready, Tick);
            Inv(config, next) && At(next.world, client, id, Tracked(config.rules, s, input.frame))
  {
    assert Stands(ready.world, id, s) && client in ready.world.playerByClient && ready.world.playerByClient[client] == id;
    hide *;
    InvShaped(config, ready);
    StepKeepsInv(config, order, ready, Tick);
    TickKeepsCommands(config, order, ready.world);
    TickTracks(config, order, ready.world, client, id, s, input);
    StepTick(config, order, ready);
    AtFrom(ready.world, TickFixed(config, order, ready.world), client, id, Tracked(config.rules, s, input.frame));
  }

  lemma InvShaped(config: Config, g: Game)
    requires Inv(config, g)
    ensures Shaped(config, g.world)
  {
  }

  /** Over a window with one input per tick and no death, the server moves the player by
      folding the inputs. */
  lemma {:induction false} ServerTracks(config: Config, order: Order, g: Game, rounds: seq<seq<Action>>, n: nat, client: ClientId, id: EntityId, s: Stance, inputs: seq<Input>)
    requires Sane(config) && ValidOrder(order) && Inv(config, g) && At(g.world, client, id, s)
    requires n <= |rounds| == |inputs|
    requires forall k: nat :: k < |rounds| ==> RoundOk(config, order, g, rounds, client, id, inputs, k)
    ensures var next := Played(config, order, g, rounds, n);
            Inv(config, next) && At(next.world, client, id, TrackAll(config.rules, s, inputs, n))
  {
    hide Inv, At, Sane, Step, Prepared, Survives, FilterBy, Tracked;
    if n > 0 {
      ServerTracks(config, order, g, rounds, n - 1, client, id, s, inputs);
      var t := TrackAll(config.rules, s, inputs, n - 1);
      var before := Played(config, order, g, rounds, n - 1);
      assert RoundOk(config, order, g, rounds, client, id, inputs, n - 1);
      PreparedKeepsStance(config, order, before, rounds[n - 1], |rounds[n - 1]|, client, id, t);
      RoundTracks(config, order, Ready(config, order, g, rounds, n - 1), client, id, t, inputs[n - 1]);
    }
  }

  // --- which inputs are still unacknowledged ---

  /** Whatever this client has queued is newer than `sequence`. */
  ghost predicate Newer(w: World, client: ClientId, sequence: Sequence) {
    && client in w.playerByClient && client in w.lastAccepted && w.lastAccepted[client] >= sequence
    && (forall k :: 0 <= k < |w.pending| && w.pending[k].client == client ==> w.pending[k].sequence > sequence)
  }

  lemma StepKeepsNewer(config: Config, order: Order, g: Game, action: Action, client: ClientId, sequence: Sequence)
    requires Newer(g.world, client, sequence)
    ensures Newer(Step(config, order, g, action).world, client, sequence)
  {
    if action.Tick? {
      TickKeepsCommands(config, order, g.world);
      hide TickFixed;
    } else {
      hide NewPlayer, Spawn;
    }
  }

  lemma PreparedUnfold(config: Config, order: Order, g: Game, commands: seq<Action>, n: nat)
    requires n <= |commands|
    ensures Prepared(config, order, g, commands, n)
         == if n == 0 then g else Step(config, order, Prepared(config, order, g, commands, n - 1), commands[n - 1])
  {
  }

  lemma {:induction false} PreparedKeepsNewer(config: Config, order: Order, g: Game, commands: seq<Action>, n: nat, client: ClientId, sequence: Sequence)
    requires n <= |commands| && Newer(g.world, client, sequence)
    ensures Newer(Prepared(config, order, g, commands, n).world, client, sequence)
  {
    hide *;
    PreparedUnfold(config, order, g, commands, n);
    if n > 0 {
      PreparedKeepsNewer(config, order, g, commands, n - 1, client, sequence);
      StepKeepsNewer(config, order, Prepared(config, order, g, commands, n - 1), commands[n - 1], client, sequence);
    }
  }

  lemma {:induction false} PlayedKeepsNewer(config: Config, order: Order, g: Game, rounds: seq<seq<Action>>, n: nat, client: ClientId, sequence: Sequence)
    requires n <= |rounds| && Newer(g.world, client, sequence)
    ensures Newer(Played(config, order, g, rounds, n).world, client, sequence)
    ensures n < |rounds| ==> Newer(Ready(config, order, g, rounds, n).world, client, sequence)
  {
    hide Newer, Step, Prepared;
    if n > 0 {
      PlayedKeepsNewer(config, order, g, rounds, n - 1, client, sequence);
      StepKeepsNewer(config, order, Ready(config, order, g, rounds, n - 1), Tick, client, sequence);
    }
    if n < |rounds| {
      PreparedKeepsNewer(config, order, Played(config, order, g, rounds, n), rounds[n], |rounds[n]|, client, sequence);
    }
  }

  lemma FilteredIsPending(inputs: seq<Input>, client: ClientId, input: Input)
    requires FilterBy(inputs, client) == [input]
    ensures input.client == client && input in inputs
  {
    var m := FilterOne(inputs, client, input);
  }

  /** The inputs of a window are newer than what the snapshot before it acknowledges. */
  lemma WindowIsNewer(config: Config, order: Order, g: Game, rounds: seq<seq<Action>>, client: ClientId, id: EntityId, inputs: seq<Input>, k: nat, sequence: Sequence)
    requires k < |rounds| == |inputs| && RoundOk(config, order, g, rounds, client, id, inputs, k)
    requires Newer(g.world, client, sequence)
    ensures inputs[k].client == client && inputs[k].sequence > sequence
  {
    PlayedKeepsNewer(config, order, g, rounds, k, client, sequence);
    FilteredIsPending(Ready(config, order, g, rounds, k).world.pending, client, inputs[k]);
    hide Ready, FilterBy, Survives;
  }

  lemma {:induction false} AllAcknowledged(inputs: seq<Input>, sequence: Sequence)
    requires forall k :: 0 <= k < |inputs| ==> inputs[k].sequence <= sequence
    ensures AcknowledgeThrough(inputs, sequence) == []
  {
    if inputs != [] {
      AllAcknowledged(inputs[..|inputs| - 1], sequence);
    }
  }

  lemma {:induction false} AcknowledgeSplits(old_: seq<Input>, fresh_: seq<Input>, sequence: Sequence)
    requires forall k :: 0 <= k < |old_| ==> old_[k].sequence <= sequence
    requires forall k :: 0 <= k < |fresh_| ==> fresh_[k].sequence > sequence
    ensures AcknowledgeThrough(old_ + fresh_, sequence) == fresh_
  {
    hide AcknowledgeThrough;
    if fresh_ == [] {
      AllAcknowledged(old_, sequence);
      assert old_ + fresh_ == old_;
    } else {
      var front, last := fresh_[..|fresh_| - 1], fresh_[|fresh_| - 1];
      AcknowledgeSplits(old_, front, sequence);
      assert fresh_ == front + [last];
      AcknowledgeLast(old_ + front, last, sequence);
      assert old_ + fresh_ == old_ + front + [last];
    }
  }

  lemma AcknowledgeLast(front: seq<Input>, last: Input, sequence: Sequence)
    requires last.sequence > sequence
    ensures AcknowledgeThrough(front + [last], sequence) == AcknowledgeThrough(front, sequence) + [last]
  {
    assert (front + [last])[..|front|] == front;
  }

  // --- the client ---

  /** No entity that is about to leave carries the client's player. */
  ghost predicate NobodyLeaves(w: World, states: seq<EntityState>, local: ClientId, client: ClientId) {
    forall id :: id in w.entities && id !in Seen(states) && !OwnedBy(w.entities[id], local) && w.entities[id].player.Some? ==>
      w.entities[id].player.value.client != client
  }

  /** No entity that is about to leave carries the local client's player. */
  ghost predicate NoImpostor(w: World, states: seq<EntityState>, local: ClientId) {
    NobodyLeaves(w, states, local, local)
  }

  /** The snapshot's one player of this client. */
  ghost predicate OnlyOwn(states: seq<EntityState>, client: ClientId, k: nat) {
    && client != 0
    && k < |states| && states[k].replica.kind == PlayerKind && states[k].replica.owner == client
    && (forall j :: 0 <= j < |states| && states[j].replica.kind == PlayerKind && states[j].replica.owner == client ==> j == k)
  }

  lemma ApplyStateIndex(config: Config, w: World, local: ClientId, serverTime: Time, state: EntityState)
    ensures ApplyState(config, w, local, serverTime, state).playerByClient
         == if state.replica.kind == PlayerKind && state.replica.owner != 0
            then w.playerByClient[state.replica.owner := state.movement.entityId] else w.playerByClient
  {
  }

  ghost predicate KnowsOwn(w: World, client: ClientId, states: seq<EntityState>, k: nat)
    requires k < |states|
  {
    client in w.playerByClient && w.playerByClient[client] == states[k].movement.entityId
  }

  lemma AppliesOwnIndex(config: Config, w: World, local: ClientId, client: ClientId, serverTime: Time, states: seq<EntityState>, n: nat, k: nat)
    requires OnlyOwn(states, client, k) && 0 < n <= |states|
    requires k < n - 1 ==> KnowsOwn(w, client, states, k)
    ensures k < n ==> KnowsOwn(ApplyState(config, w, local, serverTime, states[n - 1]), client, states, k)
  {
    ApplyStateIndex(config, w, local, serverTime, states[n - 1]);
    hide ApplyState;
  }

  lemma {:induction false} AppliedIndex(config: Config, w: World, local: ClientId, client: ClientId, serverTime: Time, states: seq<EntityState>, n: nat, k: nat)
    requires OnlyOwn(states, client, k) && n <= |states|
    ensures k < n ==> KnowsOwn(ApplyStates(config, w, local, serverTime, states, n), client, states, k)
  {
    if n > 0 {
      AppliedIndex(config, w, local, client, serverTime, states, n - 1, k);
      AppliesOwnIndex(config, ApplyStates(config, w, local, serverTime, states, n - 1), local, client, serverTime, states, n, k);
      hide ApplyState, KnowsOwn, OnlyOwn;
    }
  }

  lemma {:induction false} LeftIndex(w: World, local: ClientId, client: ClientId, walk: seq<EntityId>, n: nat)
    requires n <= |walk| && Distinct(walk)
    requires client in w.playerByClient
    ensures var index := LeaveAll(w, local, walk, n).playerByClient;
            && (client in index <==> forall j :: 0 <= j < n && walk[j] in w.entities && w.entities[walk[j]].player.Some? ==>
                  w.entities[walk[j]].player.value.client != client)
            && (client in index ==> index[client] == w.playerByClient[client])
  {
    if n > 0 {
      LeftIndex(w, local, client, walk, n - 1);
      LeftEntities(w, local, walk, n - 1);
      assert walk[n - 1] !in walk[..n - 1];
    }
  }

  /** After a snapshot that shows a client's player everybody who applies it knows which
      entity that is, if and only if nothing that leaves carries the same client's player. */
  lemma PlayerIsKnown(config: Config, order: Order, w: World, snapshot: Snapshot, local: ClientId, client: ClientId, k: nat)
    requires WellNamed(snapshot.entities) && ValidOrder(order) && OnlyOwn(snapshot.entities, client, k)
    ensures var index := ApplySnapshot(config, order, w, snapshot, local).playerByClient;
            && (client in index <==> NobodyLeaves(w, snapshot.entities, local, client))
            && (client in index ==> index[client] == snapshot.entities[k].movement.entityId)
  {
    var states := snapshot.entities;
    var applied := ApplyStates(config, w, local, snapshot.serverTime, states, |states|);
    var walk := LeaveOrder(order, applied, local, snapshot);
    assert Enumerates(walk, Leaving(applied, local, Seen(states)));
    AppliedIndex(config, w, local, client, snapshot.serverTime, states, |states|, k);
    AppliedEntities(config, w, local, snapshot.serverTime, states, |states|);
    assert states[..|states|] == states;
    LeftIndex(applied, local, client, walk, |walk|);
    hide ApplyStates, LeaveAll, LeaveOrder, Seen, IsSynced, OnlyOwn;
    LeaversAreUnseen(config, w, states, local, client, applied, walk);
  }

  lemma LeaversAreUnseen(config: Config, w: World, states: seq<EntityState>, local: ClientId, client: ClientId, applied: World, walk: seq<EntityId>)
    requires Enumerates(walk, Leaving(applied, local, Seen(states)))
    requires applied.entities.Keys == w.entities.Keys + Seen(states)
    requires forall id :: id in w.entities && id !in Seen(states) ==> applied.entities[id] == w.entities[id]
    ensures NobodyLeaves(w, states, local, client) <==>
            forall j :: 0 <= j < |walk| && walk[j] in applied.entities && applied.entities[walk[j]].player.Some? ==>
              applied.entities[walk[j]].player.value.client != client
  {
    hide Seen;
    if forall j :: 0 <= j < |walk| && walk[j] in applied.entities && applied.entities[walk[j]].player.Some? ==>
         applied.entities[walk[j]].player.value.client != client
    {
      forall id | id in w.entities && id !in Seen(states) && !OwnedBy(w.entities[id], local) && w.entities[id].player.Some?
        ensures w.entities[id].player.value.client != client
      {
        assert id in Leaving(applied, local, Seen(states));
        assert id in walk;
      }
    } else {
      var j :| 0 <= j < |walk| && walk[j] in applied.entities && applied.entities[walk[j]].player.Some?
               && applied.entities[walk[j]].player.value.client == client;
      assert walk[j] in walk;
      assert walk[j] in Leaving(applied, local, Seen(states));
    }
  }

  /** What a server's state of a standing player makes of any client entity. */
  lemma SyncedStands(config: Config, e: Entity, local: ClientId, serverTime: Time, observer: ClientId, id: EntityId, source: Entity)
    requires source.player.Some? && source.aim.Some?
    ensures var next := Synced(config, e, local, serverTime, StateOf(observer, id, source));
            && next.player.Some? && next.body == source.body && next.aim == source.aim
            && next.Defeated() == source.Defeated()
  {
  }

  // --- replaying ---

  /** Like At, but for the intent, which replaying sets afresh. */
  ghost predicate Placed(w: World, client: ClientId, id: EntityId, s: Stance) {
    && client in w.playerByClient && w.playerByClient[client] == id
    && IsPlayer(w, id) && !w.entities[id].Defeated() && !s.defeated
    && w.entities[id].body == s.body && w.entities[id].aim == s.aim
  }

  lemma ReplayTracksOne(config: Config, server: Config, w: World, input: Input, id: EntityId, s: Stance)
    requires Placed(w, input.client, id, s) && config.rules == server.rules
    ensures Placed(ReplayOne(config, w, input), input.client, id, Tracked(server.rules, s, input.frame))
  {
    hide Moved, Aimed, FindWeapon;
  }

  lemma ReplayUnfold(config: Config, rules: Rules, w: World, inputs: seq<Input>, n: nat, s: Stance)
    requires n <= |inputs|
    ensures n == 0 ==> Replay(config, w, inputs, n) == w && TrackAll(rules, s, inputs, n) == s
    ensures n > 0 ==> Replay(config, w, inputs, n) == ReplayOne(config, Replay(config, w, inputs, n - 1), inputs[n - 1])
    ensures n > 0 ==> TrackAll(rules, s, inputs, n) == Tracked(rules, TrackAll(rules, s, inputs, n - 1), inputs[n - 1].frame)
  {
  }

  lemma {:induction false} ReplayTracks(config: Config, server: Config, w: World, inputs: seq<Input>, n: nat, client: ClientId, id: EntityId, s: Stance)
    requires n <= |inputs| && (forall k :: 0 <= k < |inputs| ==> inputs[k].client == client)
    requires Placed(w, client, id, s) && config.rules == server.rules
    ensures Placed(Replay(config, w, inputs, n), client, id, TrackAll(server.rules, s, inputs, n))
  {
    hide *;
    ReplayUnfold(config, server.rules, w, inputs, n, s);
    if n > 0 {
      ReplayTracks(config, server, w, inputs, n - 1, client, id, s);
      ReplayTracksOne(config, server, Replay(config, w, inputs, n - 1), inputs[n - 1], id, TrackAll(server.rules, s, inputs, n - 1));
    }
  }

  // --- the snapshot in between ---

  ghost predicate ShowsPlayer(w: World, snapshot: Snapshot, client: ClientId, id: EntityId, k: nat) {
    && id in w.entities
    && WellNamed(snapshot.entities) && OnlyOwn(snapshot.entities, client, k)
    && snapshot.entities[k] == StateOf(client, id, w.entities[id])
  }

  lemma StateOfFacts(config: Config, w: World, observer: ClientId, id: EntityId)
    requires Shaped(config, w) && id in w.entities
    ensures var state := StateOf(observer, id, w.entities[id]);
            && state.Id() == id == state.movement.entityId
            && (state.replica.kind == PlayerKind ==>
                  state.combat.Some?
                  && state.replica.owner in w.playerByClient && w.playerByClient[state.replica.owner] == id)
  {
    EntityOkUnfold(config, w, id);
  }

  /** Every state of a server's snapshot shows an entity as it is. */
  ghost predicate Shows(w: World, observer: ClientId, state: EntityState) {
    state.Id() in w.entities && state == StateOf(observer, state.Id(), w.entities[state.Id()])
  }

  lemma SnapshotShows(config: Config, order: Order, w: World, observer: ClientId, sid: SnapshotId, baseline: SnapshotId)
    requires ValidOrder(order) && Chunked(config.rules.map_)
    ensures var states := BuildSnapshot(config, order, w, observer, sid, baseline).entities;
            && (forall k :: 0 <= k < |states| ==> Shows(w, observer, states[k]))
            && DistinctIds(states)
            && (forall id :: id in w.entities && Visible(config, w, observer, id) ==> StateOf(observer, id, w.entities[id]) in states)
  {
    var walk := order(w.tick, 4 + w.nextId + observer, w.entities.Keys);
    assert Enumerates(walk, w.entities.Keys);
    VisibleStatesFacts(config, w, observer, walk);
    var states := VisibleStates(config, w, observer, walk);
    assert BuildSnapshot(config, order, w, observer, sid, baseline).entities == states;
    hide Visible, StateOf, VisibleStates, BuildSnapshot;
    forall id | id in w.entities && Visible(config, w, observer, id)
      ensures StateOf(observer, id, w.entities[id]) in states
    {
      assert id in walk;
    }
  }

  /** Server snapshots name every entity once and show every player's combat state. */
  lemma SnapshotIsComplete(config: Config, order: Order, w: World, observer: ClientId, sid: SnapshotId, baseline: SnapshotId)
    requires Shaped(config, w) && ValidOrder(order) && Chunked(config.rules.map_)
    ensures Complete(BuildSnapshot(config, order, w, observer, sid, baseline).entities)
  {
    SnapshotShows(config, order, w, observer, sid, baseline);
    var states := BuildSnapshot(config, order, w, observer, sid, baseline).entities;
    hide Shaped, BuildSnapshot, StateOf, Visible;
    forall k | 0 <= k < |states|
      ensures states[k].movement.entityId == states[k].Id() && (states[k].replica.kind == PlayerKind ==> states[k].combat.Some?)
    {
      assert Shows(w, observer, states[k]);
      StateOfFacts(config, w, observer, states[k].Id());
    }
  }

  lemma OwnPlayerIsVisible(config: Config, w: World, client: ClientId)
    requires Shaped(config, w) && Chunked(config.rules.map_) && client in w.playerByClient
    ensures w.playerByClient[client] in w.entities
    ensures var id := w.playerByClient[client];
            Visible(config, w, client, id) && StateOf(client, id, w.entities[id]).replica.kind == PlayerKind
            && StateOf(client, id, w.entities[id]).replica.owner == client
  {
    var id := w.playerByClient[client];
    assert IsPlayer(w, id) && w.entities[id].player.value.client == client;
    EntityOkUnfold(config, w, id);
    hide Shaped, EntityOk;
  }

  /** A server's snapshot for a client shows that client's player, exactly once. */
  lemma SnapshotShowsOwnPlayer(config: Config, order: Order, w: World, client: ClientId, sid: SnapshotId, baseline: SnapshotId)
    returns (k: nat)
    requires Shaped(config, w) && ValidOrder(order) && Chunked(config.rules.map_)
    requires client in w.playerByClient && client != 0
    ensures ShowsPlayer(w, BuildSnapshot(config, order, w, client, sid, baseline), client, w.playerByClient[client], k)
  {
    var id := w.playerByClient[client];
    var states := BuildSnapshot(config, order, w, client, sid, baseline).entities;
    OwnPlayerIsVisible(config, w, client);
    SnapshotShows(config, order, w, client, sid, baseline);
    SnapshotIsComplete(config, order, w, client, sid, baseline);
    hide Shaped, BuildSnapshot, StateOf, Visible, WellNamed;
    k :| 0 <= k < |states| && states[k] == StateOf(client, id, w.entities[id]);
    StateOfFacts(config, w, client, id);
    forall j | 0 <= j < |states| && states[j].replica.kind == PlayerKind && states[j].replica.owner == client
      ensures j == k
    {
      assert Shows(w, client, states[j]);
      StateOfFacts(config, w, client, states[j].Id());
    }
  }

  lemma SnapshotPlaces(server: Config, config: Config, order: Order, sw: World, w: World, snapshot: Snapshot, client: ClientId, id: EntityId, k: nat, s: Stance)
    requires Shaped(server, sw) && At(sw, client, id, s) && ShowsPlayer(sw, snapshot, client, id, k) && ValidOrder(order)
    requires NoImpostor(w, snapshot.entities, client)
    ensures Placed(ApplySnapshot(config, order, w, snapshot, client), client, id, s)
  {
    EntityOkUnfold(server, sw, id);
    SnapshotPutsInLine(config, order, w, snapshot, client);
    PlayerIsKnown(config, order, w, snapshot, client, client, k);
    var next := ApplySnapshot(config, order, w, snapshot, client);
    assert IsSynced(config, w, client, snapshot.serverTime, snapshot.entities[k], next);
    SyncedStands(config, if id in w.entities then w.entities[id] else BLANK, client, snapshot.serverTime, client, id, sw.entities[id]);
    hide ApplySnapshot, Synced, Shaped, NoImpostor, WellNamed, OnlyOwn, InLine;
  }

  // --- the theorem ---

  ghost predicate SamePlace(a: World, b: World, id: EntityId) {
    && id in a.entities && id in b.entities
    && a.entities[id].body == b.entities[id].body && a.entities[id].aim == b.entities[id].aim
  }

  lemma PredictsFrom(server: Config, config: Config, order: Order, clientOrder: Order,
                     g: Game, rounds: seq<seq<Action>>, client: ClientId, sid: SnapshotId, baseline: SnapshotId,
                     w: World, old_: seq<Input>, inputs: seq<Input>)
    requires Sane(server) && Chunked(server.rules.map_) && config.rules == server.rules
    requires ValidOrder(order) && ValidOrder(clientOrder)
    requires Inv(server, g) && g.world.pending == [] && client != 0 && client in g.world.playerByClient
    requires var id := g.world.playerByClient[client];
             && IsPlayer(g.world, id) && !g.world.entities[id].Defeated()
             && |rounds| == |inputs|
             && (forall k: nat :: k < |rounds| ==> RoundOk(server, order, g, rounds, client, id, inputs, k))
    requires var snapshot := BuildSnapshot(server, order, g.world, client, sid, baseline);
             && NoImpostor(w, snapshot.entities, client)
             && (forall k :: 0 <= k < |old_| ==> old_[k].sequence <= snapshot.ackedInput)
    ensures var snapshot := BuildSnapshot(server, order, g.world, client, sid, baseline);
            SamePlace(Reconcile(config, clientOrder, w, old_ + inputs, snapshot, client),
                      Played(server, order, g, rounds, |rounds|).world, g.world.playerByClient[client])
  {
    var id := g.world.playerByClient[client];
    var snapshot := BuildSnapshot(server, order, g.world, client, sid, baseline);
    InvShaped(server, g);
    assert IsPlayer(g.world, id);
    var s := StanceOf(g.world.entities[id]);
    assert At(g.world, client, id, s);
    AckedIsLast(server, g, client);
    hide Inv, Sane, Shaped, At, RoundOk, BuildSnapshot, NoImpostor, Newer;
    ServerTracks(server, order, g, rounds, |rounds|, client, id, s, inputs);
    var k := SnapshotShowsOwnPlayer(server, order, g.world, client, sid, baseline);
    SnapshotPlaces(server, config, clientOrder, g.world, w, snapshot, client, id, k, s);
    SnapshotAcks(server, order, g.world, client, sid, baseline);
    forall j | 0 <= j < |inputs|
      ensures inputs[j].client == client && inputs[j].sequence > snapshot.ackedInput
    {
      WindowIsNewer(server, order, g, rounds, client, id, inputs, j, snapshot.ackedInput);
    }
    AcknowledgeSplits(old_, inputs, snapshot.ackedInput);
    ReplayTracks(config, server, ApplySnapshot(config, clientOrder, w, snapshot, client), inputs, |inputs|, client, id, s);
    Agree(Reconcile(config, clientOrder, w, old_ + inputs, snapshot, client), Played(server, order, g, rounds, |rounds|).world,
          client, id, TrackAll(server.rules, s, inputs, |inputs|));
  }

  lemma AckedIsLast(config: Config, g: Game, client: ClientId)
    requires Inv(config, g) && g.world.pending == [] && client in g.world.playerByClient
    ensures client in g.world.lastAccepted && Newer(g.world, client, g.world.lastAccepted[client])
  {
    InvInputsOk(config, g);
    hide Inv;
    assert client in g.world.lastAccepted.Keys;
  }

  lemma SnapshotAcks(config: Config, order: Order, w: World, client: ClientId, sid: SnapshotId, baseline: SnapshotId)
    requires Chunked(config.rules.map_) && client in w.lastAccepted
    ensures BuildSnapshot(config, order, w, client, sid, baseline).ackedInput == w.lastAccepted[client]
  {
  }

  lemma Agree(a: World, b: World, client: ClientId, id: EntityId, s: Stance)
    requires Placed(a, client, id, s) && At(b, client, id, s)
    ensures SamePlace(a, b, id)
  {
  }

  /** Replay predicts the server. A server in any reachable state has just ticked; its
      snapshot for a client reaches that client, whose own simulation may have predicted
      anything before. If every later tick consumes exactly the client's next input and the
      player does not die, then replaying those inputs puts the client's player exactly
      where the server's player is after the last of these ticks: position, velocity, aim. */
  lemma ReplayPredictsServer(server: Config, config: Config, order: Order, clientOrder: Order,
                             actions: seq<Action>, rounds: seq<seq<Action>>, client: ClientId, sid: SnapshotId, baseline: SnapshotId,
                             w: World, old_: seq<Input>, inputs: seq<Input>)
    requires Sane(server) && Chunked(server.rules.map_) && config.rules == server.rules
    requires ValidOrder(order) && ValidOrder(clientOrder) && client != 0 && |rounds| == |inputs|
    requires var g := Run(server, order, actions + [Tick]);
             && client in g.world.playerByClient
             && IsPlayer(g.world, g.world.playerByClient[client])
             && !g.world.entities[g.world.playerByClient[client]].Defeated()
             && (forall k: nat :: k < |rounds| ==> RoundOk(server, order, g, rounds, client, g.world.playerByClient[client], inputs, k))
    requires var snapshot := BuildSnapshot(server, order, Run(server, order, actions + [Tick]).world, client, sid, baseline);
             && NoImpostor(w, snapshot.entities, client)
             && (forall k :: 0 <= k < |old_| ==> old_[k].sequence <= snapshot.ackedInput)
    ensures var g := Run(server, order, actions + [Tick]);
            var snapshot := BuildSnapshot(server, order, g.world, client, sid, baseline);
            SamePlace(Reconcile(config, clientOrder, w, old_ + inputs, snapshot, client),
                      Played(server, order, g, rounds, |rounds|).world, g.world.playerByClient[client])
  {
    var g := Run(server, order, actions + [Tick]);
    RunKeepsInv(server, order, actions + [Tick]);
    JustTicked(server, order, actions);
    hide *;
    PredictsFrom(server, config, order, clientOrder, g, rounds, client, sid, baseline, w, old_, inputs);
  }

  // --- why one input a tick ---

  /** The default movement rules. */
  const DEFAULT_RULES := Rules(MapConfig(128, 80, 80, 8, 1), 16, 2600 * FIXED_ONE, 360 * FIXED_ONE)

  /** A tick that consumes two inputs is not two steps of the replay: with the default
      rules a player at rest who has two inputs to the right in one tick is moved once by
      the server and twice by the replay of the same two inputs. */
  lemma TwoInputsInOneTickDiffer(server: Config, config: Config, order: Order, w: World, local: World, id: EntityId, s: Stance, a: Input, b: Input)
    requires Shaped(server, w) && ValidOrder(order) && At(w, a.client, id, s)
    requires FilterBy(w.pending, a.client) == [a, b] && Survives(w, TickFixed(server, order, w), id)
    requires server.rules == config.rules == DEFAULT_RULES
    requires s.body == Body(5000000, 5000000, 0, 0) && a.frame == b.frame && a.frame.moveX == 1 && a.frame.moveY == 0
    requires Placed(local, a.client, id, s) && b.client == a.client
    ensures var next := TickFixed(server, order, w).entities;
            id in next && next[id].body == Body(5000665, 5000000, 41600, 0)
    ensures var replayed := Replay(config, local, [a, b], 2).entities;
            id in replayed && replayed[id].body == Body(5001996, 5000000, 83200, 0)
    ensures !SamePlace(Replay(config, local, [a, b], 2), TickFixed(server, order, w), id)
  {
    TickTurns(server, order, w, a.client, id, s);
    TurnedTwice(s, a, b);
    ReplayTracks(config, server, local, [a, b], 2, a.client, id, s);
    TrackedTwice(server.rules, s, a, b);
    OneStepRight(s.body, a.frame);
    OneStepRight(Body(5000665, 5000000, 41600, 0), a.frame);
    hide TickFixed, FilterBy, Replay, Moved, Turned, TrackAll, Shaped, Survives;
  }

  lemma TurnedTwice(s: Stance, a: Input, b: Input)
    ensures Turned(s, [a, b]).intent == Some(b.frame)
  {
  }

  lemma TrackedTwice(rules: Rules, s: Stance, a: Input, b: Input)
    ensures TrackAll(rules, s, [a, b], 2).body == Moved(rules, Moved(rules, s.body, Some(a.frame)), Some(b.frame))
  {
    assert TrackAll(rules, s, [a, b], 0) == s;
    assert TrackAll(rules, s, [a, b], 1) == Tracked(rules, s, a.frame);
    hide Moved, Aimed;
  }

  lemma OneStepRight(body: Body, frame: InputFrame)
    requires frame.moveX == 1 && frame.moveY == 0
    ensures body == Body(5000000, 5000000, 0, 0) ==> Moved(DEFAULT_RULES, body, Some(frame)) == Body(5000665, 5000000, 41600, 0)
    ensures body == Body(5000665, 5000000, 41600, 0) ==> Moved(DEFAULT_RULES, body, Some(frame)) == Body(5001996, 5000000, 83200, 0)
  {
    assert DEFAULT_RULES.map_.Width() == 10240000 && DEFAULT_RULES.map_.Height() == 10240000;
    assert PerTick(2600000, 16) == 41600 && PerTick(41600, 16) == 665 && PerTick(83200, 16) == 1331 && PerTick(0, 16) == 0;
    assert Accelerated(0, 41600, 1000) == 41600 && Accelerated(41600, 41600, 1000) == 83200 && Accelerated(0, 41600, 0) == 0;
    hide PerTick, Accelerated, MapConfig.Width, MapConfig.Height;
  }

  lemma JustTicked(config: Config, order: Order, actions: seq<Action>)
    ensures Run(config, order, actions + [Tick]).world.pending == []
  {
    assert (actions + [Tick])[..|actions|] == actions;
    TickKeepsCommands(config, order, Run(config, order, actions).world);
    hide TickFixed;
  }
}
