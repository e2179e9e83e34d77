/** Who is sent a snapshot in one host tick, and which: told by the log of attempts, the
    cache and each client's schedule alone. */
module SnapshotTurns {
  import opened Basics
  import opened Replication
  import opened BaselineCache
  import opened ClientReplication
  import opened Host
  import opened Protocol
  import opened EventTurns
  import opened Events
  import Delta
  import Planner
  import RD = ReliableDelivery
  import SD = SnapshotDelivery

  // --- attempts ---

  /** All attempts to send a client a snapshot, oldest first. */
  function SnapshotTries(log: seq<Attempt>, client: ClientId): seq<Attempt> {
    if log == [] then []
    else
      var a := log[|log| - 1];
      SnapshotTries(log[..|log| - 1], client) + (if a.peer == client && a.message.SnapshotMessage? then [a] else [])
  }

  lemma {:induction false} SnapshotTriesSame(log: seq<Attempt>, longer: seq<Attempt>, client: ClientId)
    requires log <= longer
    requires forall i :: |log| <= i < |longer| ==> !(longer[i].peer == client && longer[i].message.SnapshotMessage?)
    ensures SnapshotTries(longer, client) == SnapshotTries(log, client)
  {
    if |longer| > |log| {
      SnapshotTriesSame(log, longer[..|longer| - 1], client);
    } else {
      assert log == longer;
    }
  }

  /** Nothing about this client's snapshots happens. */
  ghost predicate NoTurn(h: State, next: State, c: ClientId) {
    && SnapshotTries(next.log, c) == SnapshotTries(h.log, c)
    && next.clients == h.clients && h.nextSnapshotId <= next.nextSnapshotId
    && Entries(next.cache, c) == Entries(h.cache, c)
    && (c in next.states <==> c in h.states)
    && (c in h.states ==> SD.SameSnapshotView(h.states[c], next.states[c]))
  }

  /** The snapshot a client is due: what the world shows it, cut by the planner; against
      the acknowledged snapshot if that is still cached, and in full otherwise. */
  ghost predicate Fits(s: Snapshot, h: State, config: Config, world: World, c: ClientId)
    requires c in h.states
  {
    var acked := h.states[c].acked;
    var cached := acked != 0 && exists b :: b in Entries(h.cache, c) && b.snapshotId == acked;
    && s.serverTick == world.tick && s.serverTime == world.time && s.ackedInput == world.AckedInput(c)
    && s.deliveryKind == (if cached then DeltaEligible else Full)
    && s.baselineId == (if cached then acked else 0)
    && s.entities == Planner.PlanOf(config.planner, c, s.(entities := world.Visible(c))).snapshot.entities
  }

  /** One attempt with the snapshot that is due, unless the interval is not over; if the
      transport takes it, it is cached, known and the interval starts again, otherwise
      the client is tried again in the next tick. */
  ghost predicate Turn(h: State, next: State, config: Config, world: World, c: ClientId, now: Time) {
    c in h.states && c in next.states &&
    if now < h.states[c].nextSendAt then NoTurn(h, next, c)
    else
      var t, u := SnapshotTries(h.log, c), SnapshotTries(next.log, c);
      && |u| == |t| + 1 && t <= u
      && var a := u[|t|];
      && a.peer == c && a.at == now && !a.resend && a.message.SnapshotMessage?
      && a.message.snapshot.snapshotId >= h.nextSnapshotId
      && Fits(a.message.snapshot, h, config, world, c)
      && next.states[c].acked == h.states[c].acked
      && (if a.accepted
          then && next.states[c].nextSendAt == now + config.interval
               && next.states[c].known == Ids(a.message.snapshot.entities)
               && Entries(next.cache, c) == Newest(Entries(h.cache, c) + [a.message.snapshot], config.maxBaselines)
          else && SD.SameSnapshotView(h.states[c], next.states[c])
               && Entries(next.cache, c) == Entries(h.cache, c))
  }

  lemma ReliableIsNoTurn(h: State, next: State, c: ClientId)
    requires SD.OnlyReliable(h, next)
    ensures NoTurn(h, next, c) && next.nextSnapshotId == h.nextSnapshotId
  {
    SnapshotTriesSame(h.log, next.log, c);
    hide SnapshotTries;
  }

  lemma {:induction false} InterestIsReliable(h: State, oracle: Oracle, world: World, client: ClientId, events: seq<DomainEvent>, n: nat, now: Time)
    requires n <= |events|
    ensures SD.OnlyReliable(h, SendInterest(h, oracle, world, client, events, n, now))
  {
    if n > 0 {
      InterestIsReliable(h, oracle, world, client, events, n - 1, now);
      var before := SendInterest(h, oracle, world, client, events, n - 1, now);
      SD.BroadcastOneIsReliable(before, oracle, world, events[n - 1], [client], now);
      hide BroadcastOne, SD.OnlyReliable;
      SD.ReliableTransitive(h, before, BroadcastOne(before, oracle, world, events[n - 1], [client], now));
    }
  }

  lemma DueFits(h: State, config: Config, world: World, client: ClientId)
    requires client in h.states
    ensures var s := PlannedFor(h, config, world, client).snapshot;
            s.snapshotId == h.nextSnapshotId && Fits(s, h, config, world, client)
  {
    var s := PlannedFor(h, config, world, client).snapshot;
    var due := Snapshot(h.nextSnapshotId, DecisionFor(h, client).effective, DecisionFor(h, client).deliveryKind,
                        world.tick, world.time, world.AckedInput(client), world.Visible(client));
    assert s == Planner.PlanOf(config.planner, client, due).snapshot;
    assert s.(entities := world.Visible(client)) == due;
    hide FirstWithId;
    var acked := h.states[client].acked;
    if Lookup(h.cache, client, acked).Some? {
      assert Lookup(h.cache, client, acked).value in Entries(h.cache, client);
    }
  }

  lemma MoveFacts(tried: State, oracle: Oracle, snapshot: Snapshot, client: ClientId)
    requires client in tried.states
    ensures var moved := MoveInterest(tried, InterestFrame(tried, oracle, snapshot, client), snapshot, client);
            && moved.log == tried.log && moved.clients == tried.clients && moved.cache == tried.cache
            && moved.nextSnapshotId == tried.nextSnapshotId
            && moved.states == tried.states[client := tried.states[client].(known := Ids(snapshot.entities))]
  {
  }

  lemma RecordFacts(h: State, shifted: State, config: Config, planned: Planner.Planned, client: ClientId, now: Time)
    requires client in shifted.states
    ensures var done := MarkSent(RecordSnapshot(shifted, config, planned, DecisionFor(h, client), client), config, client, now);
            && done.log == shifted.log && done.clients == shifted.clients && done.nextSnapshotId == shifted.nextSnapshotId
            && done.states == shifted.states[client := shifted.states[client].(nextSendAt := now + config.interval)]
            && Entries(done.cache, client) == Newest(Entries(shifted.cache, client) + [planned.snapshot], config.maxBaselines)
            && (forall c :: c != client ==> Entries(done.cache, c) == Entries(shifted.cache, c))
  {
  }

  lemma SnapshotTriesSnoc(log: seq<Attempt>, a: Attempt, client: ClientId)
    ensures SnapshotTries(log + [a], client)
         == SnapshotTries(log, client) + (if a.peer == client && a.message.SnapshotMessage? then [a] else [])
  {
    assert (log + [a])[..|log|] == log;
  }

  lemma TryLeavesOthers(h: State, oracle: Oracle, config: Config, world: World, client: ClientId, now: Time, c: ClientId)
    requires c != client
    ensures NoTurn(h, TrySnapshot(h, oracle, PlannedFor(h, config, world, client), client, now), c)
  {
    var planned := PlannedFor(h, config, world, client);
    TrySnapshotFacts(h, oracle, config, world, client, now);
    SnapshotTriesSnoc(h.log, Attempt(client, SnapshotMessage(planned.snapshot), now, oracle.accepts(|h.log|), false), c);
    assert TrySnapshot(h, oracle, planned, client, now).nextSnapshotId == h.nextSnapshotId + 1;
    hide PlannedFor, TrySnapshot, SnapshotTries;
  }

  lemma MoveLeavesOthers(tried: State, oracle: Oracle, snapshot: Snapshot, client: ClientId, c: ClientId)
    requires client in tried.states && c != client
    ensures NoTurn(tried, MoveInterest(tried, InterestFrame(tried, oracle, snapshot, client), snapshot, client), c)
  {
    MoveFacts(tried, oracle, snapshot, client);
    hide MoveInterest, InterestFrame, SnapshotTries;
  }

  lemma RecordLeavesOthers(h: State, shifted: State, config: Config, planned: Planner.Planned, client: ClientId, now: Time, c: ClientId)
    requires client in shifted.states && c != client
    ensures NoTurn(shifted, MarkSent(RecordSnapshot(shifted, config, planned, DecisionFor(h, client), client), config, client, now), c)
  {
    RecordFacts(h, shifted, config, planned, client, now);
    hide MarkSent, RecordSnapshot, DecisionFor, SnapshotTries, Newest;
  }

  lemma InterestKeepsClients(tried: State, oracle: Oracle, world: World, snapshot: Snapshot, client: ClientId, events: seq<DomainEvent>, now: Time)
    requires client in tried.states
    ensures client in SendInterest(MoveInterest(tried, InterestFrame(tried, oracle, snapshot, client), snapshot, client), oracle, world, client, events, |events|, now).states
  {
    var moved := MoveInterest(tried, InterestFrame(tried, oracle, snapshot, client), snapshot, client);
    InterestIsReliable(moved, oracle, world, client, events, |events|, now);
    hide InterestFrame, SendInterest;
  }

  /** A turn of one client leaves the others alone. */
  lemma TurnLeavesOthers(h: State, oracle: Oracle, config: Config, world: World, client: ClientId, now: Time, c: ClientId)
    requires client in h.states && c != client
    ensures NoTurn(h, SnapshotTurn(h, oracle, config, world, client, now), c)
  {
    var next := SnapshotTurn(h, oracle, config, world, client, now);
    var planned := PlannedFor(h, config, world, client);
    TryLeavesOthers(h, oracle, config, world, client, now, c);
    if now >= h.states[client].nextSendAt && oracle.accepts(|h.log|) {
      var tried, moved, events, shifted := TurnStages(h, oracle, config, world, client, now);
      hide *;
      MoveLeavesOthers(tried, oracle, planned.snapshot, client, c);
      InterestKeepsClients(tried, oracle, world, planned.snapshot, client, events, now);
      InterestIsReliable(moved, oracle, world, client, events, |events|, now);
      ReliableIsNoTurn(moved, shifted, c);
      RecordLeavesOthers(h, shifted, config, planned, client, now, c);
      NoneAfterNone(h, tried, moved, c);
      NoneAfterNone(h, moved, shifted, c);
      NoneAfterNone(h, shifted, next, c);
    } else {
      hide PlannedFor, SnapshotTries, DecisionFor, TrySnapshot;
    }
  }

  lemma TakesTurn(h: State, oracle: Oracle, config: Config, world: World, client: ClientId, now: Time)
    requires client in h.states
    ensures var next := SnapshotTurn(h, oracle, config, world, client, now);
            Turn(h, next, config, world, client, now) && h.nextSnapshotId <= next.nextSnapshotId && next.clients == h.clients
  {
    var next := SnapshotTurn(h, oracle, config, world, client, now);
    var planned := PlannedFor(h, config, world, client);
    DueFits(h, config, world, client);
    TrySnapshotFacts(h, oracle, config, world, client, now);
    SnapshotTriesSnoc(h.log, Attempt(client, SnapshotMessage(planned.snapshot), now, oracle.accepts(|h.log|), false), client);
    hide Fits;
    if now >= h.states[client].nextSendAt && oracle.accepts(|h.log|) {
      var tried, moved, events, shifted := TurnStages(h, oracle, config, world, client, now);
      assert tried.nextSnapshotId == h.nextSnapshotId + 1;
      hide PlannedFor, TrySnapshot, SnapshotTurn, DecisionFor, SnapshotTries;
      MoveFacts(tried, oracle, planned.snapshot, client);
      hide MoveInterest, InterestFrame;
      InterestIsReliable(moved, oracle, world, client, events, |events|, now);
      ReliableIsNoTurn(moved, shifted, client);
      RecordFacts(h, shifted, config, planned, client, now);
      hide SendInterest, RecordSnapshot, MarkSent, Newest;
    } else {
      hide PlannedFor, SnapshotTries, DecisionFor;
    }
  }

  lemma TurnAfterNone(h: State, before: State, next: State, config: Config, world: World, c: ClientId, now: Time)
    requires NoTurn(h, before, c) && Turn(before, next, config, world, c, now) && h.nextSnapshotId <= before.nextSnapshotId
    ensures Turn(h, next, config, world, c, now)
  {
    hide SnapshotTries, Newest, Entries;
  }

  lemma NoneAfterTurn(h: State, before: State, next: State, config: Config, world: World, c: ClientId, now: Time)
    requires Turn(h, before, config, world, c, now) && NoTurn(before, next, c)
    ensures Turn(h, next, config, world, c, now)
  {
    hide SnapshotTries, Newest, Entries, Fits;
  }

  lemma NoneAfterNone(h: State, before: State, next: State, c: ClientId)
    requires NoTurn(h, before, c) && NoTurn(before, next, c)
    ensures NoTurn(h, next, c)
  {
    hide SnapshotTries, Entries;
  }

  ghost predicate TurnSoFar(h: State, next: State, config: Config, world: World, c: ClientId, now: Time, done: bool) {
    next.clients == h.clients && h.nextSnapshotId <= next.nextSnapshotId
    && (if done then Turn(h, next, config, world, c, now) else NoTurn(h, next, c))
  }

  lemma TurnStep(h: State, before: State, oracle: Oracle, config: Config, world: World, client: ClientId, now: Time, c: ClientId, done: bool)
    requires TurnSoFar(h, before, config, world, c, now, done) && !(done && c == client) && client in before.states
    ensures TurnSoFar(h, SnapshotTurn(before, oracle, config, world, client, now), config, world, c, now, done || c == client)
  {
    var next := SnapshotTurn(before, oracle, config, world, client, now);
    if c == client {
      TakesTurn(before, oracle, config, world, client, now);
      hide SnapshotTurn, Turn, NoTurn;
      TurnAfterNone(h, before, next, config, world, c, now);
    } else {
      TurnLeavesOthers(before, oracle, config, world, client, now, c);
      hide SnapshotTurn, Turn, NoTurn;
      if done {
        NoneAfterTurn(h, before, next, config, world, c, now);
      } else {
        NoneAfterNone(h, before, next, c);
      }
    }
  }

  lemma {:induction false} SnapshotsTakeTurns(h: State, oracle: Oracle, config: Config, world: World, n: nat, now: Time, released: RD.Released, c: ClientId)
    requires n <= |h.clients| && RD.Inv(h, config, released)
    ensures TurnSoFar(h, Snapshots(h, oracle, config, world, n, now), config, world, c, now, c in h.clients[..n])
  {
    hide RD.Inv, SnapshotTurn, SnapshotTries, Turn;
    if n > 0 {
      SnapshotsTakeTurns(h, oracle, config, world, n - 1, now, released, c);
      RD.SnapshotsKeepInv(h, config, oracle, world, n - 1, now, released);
      RD.InvWellFormed(h, config, released);
      assert h.clients[n - 1] in h.clients;
      WalkStep(h.clients, n, c);
      hide TurnSoFar, WellFormed;
      TurnStep(h, Snapshots(h, oracle, config, world, n - 1, now), oracle, config, world, h.clients[n - 1], now, c, c in h.clients[..n - 1]);
    }
  }

  /** In every tick of every run, exactly the clients whose interval is over are sent one
      snapshot each: of the world as it is, as a delta against the acknowledged snapshot
      if and only if that is still cached. */
  lemma EveryTurnIsTaken(config: Config, oracle: Oracle, actions: seq<Action>, world: World, now: Time, c: ClientId)
    requires Legal(oracle, actions) && SD.ServerWorld(world)
    ensures var h := Run(config, oracle, actions).host;
            var next := Tick(h, oracle, config, world, now);
            if c in h.clients then Turn(h, next, config, world, c, now) else NoTurn(h, next, c)
  {
    RunKeepsInv(config, oracle, actions);
    var s := Run(config, oracle, actions);
    var h := s.host;
    hide Run, RD.Inv, SD.Inv, AcksOk, SnapshotTries;
    SnapshotsTakeTurns(h, oracle, config, world, |h.clients|, now, s.released, c);
    assert h.clients[..|h.clients|] == h.clients;
    var snapshotted := AfterSnapshots(h, oracle, config, world, now);
    SD.BroadcastIsReliable(snapshotted, oracle, world, world.events, |world.events|, now);
    var told := AfterBroadcast(h, oracle, config, world, now);
    ReliableIsNoTurn(snapshotted, told, c);
    var walk := oracle.order(|told.log|, 0, told.states.Keys);
    SD.ResendIsReliable(told, oracle, config, walk, |walk|, now);
    TickIsPhases(h, oracle, config, world, now);
    var next := Tick(h, oracle, config, world, now);
    hide AfterBroadcast, Snapshots, Resend, Tick, Turn, Broadcast;
    ReliableIsNoTurn(told, next, c);
    hide SD.OnlyReliable, NoTurn;
    NoneAfterNone(snapshotted, told, next, c);
    if c in h.clients {
      NoneAfterTurn(h, snapshotted, next, config, world, c, now);
    } else {
      NoneAfterNone(h, snapshotted, next, c);
    }
  }
}
