/** The replication protocol as a whole: the server host, the clients, and a network that
    may drop, delay, reorder and duplicate. A send the transport accepted stays in the
    host's log, and a delivery may pick any accepted entry any number of times, in any
    order, or never; the same goes for acknowledgements on the way back. */
module Protocol {
  import opened Basics
  import opened Replication
  import opened Events
  import opened BaselineCache
  import opened Host
  import RD = ReliableDelivery
  import SD = SnapshotDelivery

  datatype Ack =
    | AckSnapshot(client: ClientId, snapshotId: SnapshotId)
    | AckEvent(client: ClientId, eventId: EventId)

  /** What the clients have done so far: snapshots applied and reliable events ingested,
      in the order in which it happened. */
  datatype System = System(
    host: State,
    applied: map<ClientId, seq<Snapshot>>,
    ingested: map<ClientId, seq<NetworkEvent>>,
    acks: set<Ack>,
    released: RD.Released)

  datatype Action =
    | Connect(client: ClientId)
    | HostTick(world: World, now: Time)
    | Deliver(entry: nat, ackSent: bool)
    | DeliverAck(ack: Ack)

  const START := System(INITIAL, map[], map[], {}, map[])

  function Ingested(s: System, client: ClientId): seq<NetworkEvent> {
    if client in s.ingested then s.ingested[client] else []
  }

  /** A client takes one message: it applies or ingests it, then acknowledges it if its
      own send succeeds. It neither deduplicates events nor rejects stale snapshots. */
  function Receive(s: System, client: ClientId, message: Message, ackSent: bool): System {
    match message
    case SnapshotMessage(snapshot) =>
      s.(applied := s.applied[client := SD.AppliedBy(s.applied, client) + [snapshot]],
         acks := s.acks + (if ackSent then {AckSnapshot(client, snapshot.snapshotId)} else {}))
    case EventMessage(event) =>
      s.(ingested := s.ingested[client := Ingested(s, client) + [event]],
         acks := s.acks + (if ackSent then {AckEvent(client, event.eventId)} else {}))
  }

  function HandleAck(s: System, ack: Ack): System {
    match ack
    case AckSnapshot(client, id) => s.(host := SnapshotAck(s.host, client, id))
    case AckEvent(client, id) =>
      s.(host := EventAck(s.host, client, id), released := RD.Release(s.host, s.released, client, id))
  }

  function Step(config: Config, oracle: Oracle, s: System, action: Action): System {
    match action
    case Connect(client) => s.(host := Login(s.host, client))
    case HostTick(world, now) => s.(host := Tick(s.host, oracle, config, world, now))
    case Deliver(k, ackSent) =>
      if k < |s.host.log| && s.host.log[k].accepted
      then Receive(s, s.host.log[k].peer, s.host.log[k].message, ackSent)
      else s
    case DeliverAck(ack) => if ack in s.acks then HandleAck(s, ack) else s
  }

  function Run(config: Config, oracle: Oracle, actions: seq<Action>): System {
    if actions == [] then START
    else Step(config, oracle, Run(config, oracle, actions[..|actions| - 1]), actions[|actions| - 1])
  }

  /** Worlds come from the server simulation; hash containers are walked completely. */
  ghost predicate Legal(oracle: Oracle, actions: seq<Action>) {
    && ValidOrder(oracle.order)
    && forall k :: 0 <= k < |actions| && actions[k].HostTick? ==> SD.ServerWorld(actions[k].world)
  }

  // --- the invariant over whole runs ---

  ghost predicate AcksOk(s: System) {
    && (forall a :: a in s.acks && a.AckSnapshot? ==> SD.HasApplied(s.applied, a.client, a.snapshotId))
    && (forall a :: a in s.acks && a.AckEvent? ==> HasIngested(s, a.client, a.eventId))
    && (forall k :: k in s.released ==> HasIngested(s, k.0, k.1))
  }

  ghost predicate HasIngested(s: System, client: ClientId, id: EventId) {
    exists e :: e in Ingested(s, client) && e.eventId == id && RD.Logged(s.host.log, e)
  }

  ghost predicate Inv(config: Config, s: System) {
    && RD.Inv(s.host, config, s.released)
    && SD.Inv(s.host, s.applied)
    && AcksOk(s)
  }

  lemma IngestedStays(s: System, t: System, client: ClientId, id: EventId)
    requires HasIngested(s, client, id)
    requires s.host.log <= t.host.log
    requires forall e :: e in Ingested(s, client) ==> e in Ingested(t, client)
    ensures HasIngested(t, client, id)
  {
    var e :| e in Ingested(s, client) && e.eventId == id && RD.Logged(s.host.log, e);
    var i :| 0 <= i < |s.host.log| && s.host.log[i].message == EventMessage(e);
    assert t.host.log[i] == s.host.log[i];
    assert RD.Logged(t.host.log, e);
  }

  /** A host step that only extends the log keeps what clients are known to have done. */
  lemma HostStepKeepsAcks(s: System, t: System)
    requires AcksOk(s) && s.host.log <= t.host.log
    requires t.applied == s.applied && t.ingested == s.ingested && t.acks == s.acks && t.released == s.released
    ensures AcksOk(t)
  {
    forall c, id | HasIngested(s, c, id)
      ensures HasIngested(t, c, id)
    {
      IngestedStays(s, t, c, id);
    }
  }

  lemma TickExtendsLog(h: State, oracle: Oracle, config: Config, world: World, now: Time)
    requires WellFormed(h)
    ensures h.log <= Tick(h, oracle, config, world, now).log
  {
    SnapshotsExtendLog(h, oracle, config, world, |h.clients|, now);
    var snapshotted := Snapshots(h, oracle, config, world, |h.clients|, now);
    BroadcastExtendsLog(snapshotted, oracle, world, world.events, |world.events|, now);
    var told := Broadcast(snapshotted, oracle, world, world.events, |world.events|, now);
    var walk := oracle.order(|told.log|, 0, told.states.Keys);
    SD.ResendIsReliable(told, oracle, config, walk, |walk|, now);
  }

  lemma {:induction false} BroadcastExtendsLog(h: State, oracle: Oracle, world: World, events: seq<DomainEvent>, n: nat, now: Time)
    requires n <= |events|
    ensures h.log <= Broadcast(h, oracle, world, events, n, now).log
  {
    if n > 0 {
      BroadcastExtendsLog(h, oracle, world, events, n - 1, now);
      SD.BroadcastOneIsReliable(Broadcast(h, oracle, world, events, n - 1, now), oracle, world, events[n - 1], h.clients, now);
    }
  }

  lemma {:induction false} InterestExtendsLog(h: State, oracle: Oracle, world: World, client: ClientId, events: seq<DomainEvent>, n: nat, now: Time)
    requires n <= |events|
    ensures h.log <= SendInterest(h, oracle, world, client, events, n, now).log
  {
    if n > 0 {
      InterestExtendsLog(h, oracle, world, client, events, n - 1, now);
      SD.BroadcastOneIsReliable(SendInterest(h, oracle, world, client, events, n - 1, now), oracle, world, events[n - 1], [client], now);
    }
  }

  lemma TurnExtendsLog(h: State, oracle: Oracle, config: Config, world: World, client: ClientId, now: Time)
    ensures h.log <= SnapshotTurn(h, oracle, config, world, client, now).log
  {
    if !(client in h.states && now < h.states[client].nextSendAt) && oracle.accepts(|h.log|) && client in h.states {
      var planned := PlannedFor(h, config, world, client);
      var tried := TrySnapshot(h, oracle, planned, client, now);
      hide PlannedFor;
      var frame := InterestFrame(tried, oracle, planned.snapshot, client);
      var moved := MoveInterest(tried, frame, planned.snapshot, client);
      var events := InterestEvents(frame, client);
      InterestExtendsLog(moved, oracle, world, client, events, |events|, now);
    }
  }

  lemma {:induction false} SnapshotsExtendLog(h: State, oracle: Oracle, config: Config, world: World, n: nat, now: Time)
    requires n <= |h.clients|
    ensures h.log <= Snapshots(h, oracle, config, world, n, now).log
  {
    hide SnapshotTurn;
    if n > 0 {
      SnapshotsExtendLog(h, oracle, config, world, n - 1, now);
      TurnExtendsLog(Snapshots(h, oracle, config, world, n - 1, now), oracle, config, world, h.clients[n - 1], now);
    }
  }

  lemma ReceiveKeepsAcks(s: System, k: nat, ackSent: bool)
    requires AcksOk(s) && k < |s.host.log| && s.host.log[k].accepted
    ensures AcksOk(Receive(s, s.host.log[k].peer, s.host.log[k].message, ackSent))
  {
    var client, message := s.host.log[k].peer, s.host.log[k].message;
    var t := Receive(s, client, message, ackSent);
    forall c, id | HasIngested(s, c, id)
      ensures HasIngested(t, c, id)
    {
      IngestedStays(s, t, c, id);
    }
    forall c, id | SD.HasApplied(s.applied, c, id)
      ensures SD.HasApplied(t.applied, c, id)
    {
      var a :| a in SD.AppliedBy(s.applied, c) && a.snapshotId == id;
      assert a in SD.AppliedBy(t.applied, c);
    }
    match message {
      case SnapshotMessage(snapshot) =>
        assert snapshot in SD.AppliedBy(t.applied, client);
      case EventMessage(event) =>
        assert event in Ingested(t, client);
        assert RD.Logged(t.host.log, event);
    }
  }

  lemma StepKeepsInv(config: Config, oracle: Oracle, s: System, action: Action)
    requires Inv(config, s) && ValidOrder(oracle.order)
    requires action.HostTick? ==> SD.ServerWorld(action.world)
    ensures Inv(config, Step(config, oracle, s, action))
  {
    var t := Step(config, oracle, s, action);
    hide RD.Inv, SD.Inv;
    match action {
      case Connect(client) =>
        RD.LoginKeepsInv(s.host, config, client, s.released);
        SD.LoginKeepsInv(s.host, client, s.applied);
        HostStepKeepsAcks(s, t);
      case HostTick(world, now) =>
        RD.InvWellFormed(s.host, config, s.released);
        RD.TickKeepsInv(s.host, config, oracle, world, now, s.released);
        SD.TickKeepsInv(s.host, oracle, config, world, now, s.applied);
        TickExtendsLog(s.host, oracle, config, world, now);
        hide Tick;
        HostStepKeepsAcks(s, t);
      case Deliver(k, ackSent) =>
        if k < |s.host.log| && s.host.log[k].accepted {
          ReceiveKeepsAcks(s, k, ackSent);
          if s.host.log[k].message.SnapshotMessage? {
            var snapshot := s.host.log[k].message.snapshot;
            assert SD.SentTo(s.host.log, s.host.log[k].peer, snapshot);
            SD.ApplyKeepsInv(s.host, s.applied, s.host.log[k].peer, snapshot);
          }
        }
      case DeliverAck(ack) =>
        if ack in s.acks {
          AckKeepsInv(config, s, ack);
        }
    }
  }

  lemma EventAckKeepsAcks(config: Config, s: System, client: ClientId, id: EventId)
    requires AcksOk(s) && AckEvent(client, id) in s.acks
    ensures AcksOk(HandleAck(s, AckEvent(client, id)))
  {
    var t := HandleAck(s, AckEvent(client, id));
    assert t.host.log == s.host.log;
    hide EventAck;
    forall c, e | HasIngested(s, c, e)
      ensures HasIngested(t, c, e)
    {
      IngestedStays(s, t, c, e);
    }
  }

  lemma AckKeepsInv(config: Config, s: System, ack: Ack)
    requires Inv(config, s) && ack in s.acks
    ensures Inv(config, HandleAck(s, ack))
  {
    hide RD.Inv, SD.Inv;
    match ack {
      case AckSnapshot(client, id) =>
        RD.SnapshotAckKeepsInv(s.host, config, client, id, s.released);
        SD.SnapshotAckKeepsInv(s.host, client, id, s.applied);
        HostStepKeepsAcks(s, HandleAck(s, ack));
      case AckEvent(client, id) =>
        RD.EventAckKeepsInv(s.host, config, client, id, s.released);
        SD.EventAckKeepsInv(s.host, client, id, s.applied);
        EventAckKeepsAcks(config, s, client, id);
    }
  }

  lemma StartInv(config: Config)
    ensures Inv(config, START)
  {
    RD.InitialInv(config);
    SD.InitialInv();
    hide RD.Inv, SD.Inv;
  }

  lemma {:induction false} RunKeepsInv(config: Config, oracle: Oracle, actions: seq<Action>)
    requires Legal(oracle, actions)
    ensures Inv(config, Run(config, oracle, actions))
  {
    if actions == [] {
      StartInv(config);
    } else {
      RunKeepsInv(config, oracle, actions[..|actions| - 1]);
      hide Inv, Step;
      StepKeepsInv(config, oracle, Run(config, oracle, actions[..|actions| - 1]), actions[|actions| - 1]);
    }
  }

  // --- the main results ---

  /** An accepted attempt that sent this client a snapshot with this id. */
  ghost predicate Sent(a: Attempt, client: ClientId, id: SnapshotId) {
    a.accepted && a.peer == client && a.message.SnapshotMessage? && a.message.snapshot.snapshotId == id
  }

  /** Attempt j sent this client a snapshot with this id, and the client has applied it. */
  ghost predicate SentAndApplied(s: System, j: nat, client: ClientId, id: SnapshotId) {
    j < |s.host.log| && Sent(s.host.log[j], client, id) && s.host.log[j].message.snapshot in SD.AppliedBy(s.applied, client)
  }

  ghost predicate IsDelta(a: Attempt, client: ClientId) {
    a.peer == client && a.message.SnapshotMessage? && a.message.snapshot.deliveryKind == DeltaEligible
  }

  /** Attempt i, if a delta to this client, names a non-zero baseline that an earlier
      accepted attempt sent to it and that it has applied. */
  ghost predicate NamesSent(s: System, i: nat, client: ClientId)
    requires i < |s.host.log|
  {
    IsDelta(s.host.log[i], client) ==>
      var id := s.host.log[i].message.snapshot.baselineId;
      id != 0 && exists j: nat :: j < i && SentAndApplied(s, j, client, id)
  }

  /** If a delta would be decided now, its cached baseline is one the client has applied,
      sent to it before by an accepted attempt. */
  ghost predicate DecidesApplied(h: State, applied: SD.Applied, client: ClientId) {
    var decision := DecisionFor(h, client);
    decision.deliveryKind == DeltaEligible ==>
      var cached := Lookup(h.cache, client, decision.effective);
      cached.Some? && cached.value in SD.AppliedBy(applied, client) && SD.SentTo(h.log, client, cached.value)
  }

  lemma DecisionIsApplied(h: State, applied: SD.Applied, client: ClientId)
    requires SD.Inv(h, applied)
    ensures DecidesApplied(h, applied, client)
  {
    var decision := DecisionFor(h, client);
    SD.DecisionFacts(h, client);
    if decision.deliveryKind == DeltaEligible {
      var cached := Lookup(h.cache, client, decision.effective).value;
      assert SD.HasApplied(applied, client, decision.effective);
      var a :| a in SD.AppliedBy(applied, client) && a.snapshotId == decision.effective;
      SD.CachedIsApplied(h, applied, client, cached, a);
    }
  }

  lemma AttemptNamesSent(s: System, i: nat, client: ClientId)
    requires SD.Inv(s.host, s.applied) && i < |s.host.log|
    ensures NamesSent(s, i, client)
  {
    var log := s.host.log;
    if IsDelta(log[i], client) {
      assert SD.DeltaOk(log[i], s.applied);
      var id := log[i].message.snapshot.baselineId;
      var a :| a in SD.AppliedBy(s.applied, client) && a.snapshotId == id;
      assert SD.SentTo(log, client, a);
      var j: nat :| j < |log| && log[j].accepted && log[j].peer == client && log[j].message == SnapshotMessage(a);
      assert j < i;
      assert SentAndApplied(s, j, client, id);
    }
  }

  /** In every run, every delta ever tried towards a client names a non-zero baseline which
      an earlier accepted attempt sent to that client and which it has applied; and whenever
      the host would now decide for a delta, the cached baseline is, entity for entity, such
      a snapshot. */
  lemma DeltasNameAppliedBaselines(config: Config, oracle: Oracle, actions: seq<Action>, client: ClientId)
    requires Legal(oracle, actions)
    ensures var s := Run(config, oracle, actions);
            && (forall i: nat :: i < |s.host.log| ==> NamesSent(s, i, client))
            && DecidesApplied(s.host, s.applied, client)
  {
    RunKeepsInv(config, oracle, actions);
    var s := Run(config, oracle, actions);
    DecisionIsApplied(s.host, s.applied, client);
    forall i: nat | i < |s.host.log|
      ensures NamesSent(s, i, client)
    {
      AttemptNamesSent(s, i, client);
    }
  }

  /** When a delta is made: in the n-th turn of a tick, from whatever state the turns
      before it have left, a delta attempt names the id of a cached snapshot that the
      client has applied and that was sent to it before. */
  ghost predicate MadeFromCache(h: State, next: State, applied: SD.Applied, client: ClientId) {
    |next.log| > |h.log| && IsDelta(next.log[|h.log|], client) ==>
      var id := next.log[|h.log|].message.snapshot.baselineId;
      var cached := Lookup(h.cache, client, id);
      && cached.Some? && cached.value.snapshotId == id
      && cached.value in SD.AppliedBy(applied, client)
      && SD.SentTo(h.log, client, cached.value)
  }

  lemma TurnBegins(h: State, oracle: Oracle, config: Config, world: World, client: ClientId, now: Time)
    ensures var next := SnapshotTurn(h, oracle, config, world, client, now);
            var planned := PlannedFor(h, config, world, client);
            next.log == h.log
            || (h.log < next.log && next.log[|h.log|].message == SnapshotMessage(planned.snapshot))
  {
    var planned := PlannedFor(h, config, world, client);
    var tried := TrySnapshot(h, oracle, planned, client, now);
    assert h.log < tried.log && tried.log[|h.log|].message == SnapshotMessage(planned.snapshot);
    hide PlannedFor;
    if client in h.states {
      var frame := InterestFrame(tried, oracle, planned.snapshot, client);
      var moved := MoveInterest(tried, frame, planned.snapshot, client);
      var events := InterestEvents(frame, client);
      hide InterestFrame, InterestEvents;
      InterestExtendsLog(moved, oracle, world, client, events, |events|, now);
    }
    hide TrySnapshot, SendInterest;
  }

  lemma TurnMakesFromCache(h: State, oracle: Oracle, config: Config, world: World, client: ClientId, now: Time, applied: SD.Applied)
    requires SD.Inv(h, applied) && DistinctIds(world.Visible(client))
    ensures MadeFromCache(h, SnapshotTurn(h, oracle, config, world, client, now), applied, client)
  {
    TurnBegins(h, oracle, config, world, client, now);
    DecisionIsApplied(h, applied, client);
    SD.DecisionFacts(h, client);
    SD.PlannedSnapshotFacts(h, config, world, client);
    hide SnapshotTurn, PlannedFor, DecisionFor, SD.Inv, SD.AppliedBy, SD.SentTo;
  }

  /** Every delta, when it is made: whichever run came before and whichever turn of the
      tick it is made in, the cache then holds its baseline, and the client has applied
      exactly that snapshot. */
  lemma DeltasAreMadeFromCache(config: Config, oracle: Oracle, actions: seq<Action>, world: World, now: Time, n: nat)
    requires Legal(oracle, actions) && SD.ServerWorld(world)
    requires n < |Run(config, oracle, actions).host.clients|
    ensures var s := Run(config, oracle, actions);
            var h := Snapshots(s.host, oracle, config, world, n, now);
            var client := s.host.clients[n];
            MadeFromCache(h, SnapshotTurn(h, oracle, config, world, client, now), s.applied, client)
  {
    RunKeepsInv(config, oracle, actions);
    var s := Run(config, oracle, actions);
    SD.SnapshotsKeepInv(s.host, oracle, config, world, n, now, s.applied);
    hide Run, Snapshots, SD.Inv, SnapshotTurn;
    TurnMakesFromCache(Snapshots(s.host, oracle, config, world, n, now), oracle, config, world, s.host.clients[n], now, s.applied);
  }

  /** An event accepted for a client is still in its table or the client has it. */
  ghost predicate KeptOrIngested(s: System, client: ClientId, event: NetworkEvent) {
    || (event.eventId in RD.Pending(s.host, client) && RD.Pending(s.host, client)[event.eventId].event == event)
    || event in Ingested(s, client)
  }

  lemma AcceptedIsKept(config: Config, s: System, i: nat)
    requires Inv(config, s)
    requires i < |s.host.log| && s.host.log[i].accepted && s.host.log[i].message.EventMessage?
    ensures KeptOrIngested(s, s.host.log[i].peer, s.host.log[i].message.event)
  {
    var client := s.host.log[i].peer;
    var event := s.host.log[i].message.event;
    var id := event.eventId;
    AcceptedIsACopy(s.host.log, i, client, id);
    assert RD.KeptHere(s.host, s.released, client, id);
    if (client, id) in s.released {
      var e :| e in Ingested(s, client) && e.eventId == id && RD.Logged(s.host.log, e);
      var j :| 0 <= j < |s.host.log| && s.host.log[j].message == EventMessage(e);
      assert e == event;
    } else {
      assert id in RD.Pending(s.host, client);
      assert RD.EntryOk(s.host.log, client, id, RD.Pending(s.host, client)[id]);
      var p := RD.Pending(s.host, client)[id];
      var j :| 0 <= j < |s.host.log| && s.host.log[j].message == EventMessage(p.event);
    }
  }

  /** No reliable event is lost: in every reachable state, an event whose send to a client
      was ever accepted is still pending there or has been ingested by that client. */
  lemma NoReliableEventIsLost(config: Config, oracle: Oracle, actions: seq<Action>, i: nat)
    requires Legal(oracle, actions)
    requires i < |Run(config, oracle, actions).host.log|
    requires Run(config, oracle, actions).host.log[i].accepted
    requires Run(config, oracle, actions).host.log[i].message.EventMessage?
    ensures var s := Run(config, oracle, actions);
            KeptOrIngested(s, s.host.log[i].peer, s.host.log[i].message.event)
  {
    RunKeepsInv(config, oracle, actions);
    AcceptedIsKept(config, Run(config, oracle, actions), i);
  }

  lemma {:induction false} AcceptedIsACopy(log: seq<Attempt>, i: nat, client: ClientId, id: EventId)
    requires i < |log| && log[i].accepted && RD.IsFor(log[i], client, id)
    ensures RD.Copies(log, client, id) != []
  {
    if i < |log| - 1 {
      AcceptedIsACopy(log[..|log| - 1], i, client, id);
    }
  }

  /** Once the server has accepted a client's acknowledgement of an event, no later attempt
      sends that event to that client: released[k] is the log length at that moment. */
  lemma NeverResentAfterAck(config: Config, oracle: Oracle, actions: seq<Action>, client: ClientId, id: EventId, i: nat)
    requires Legal(oracle, actions)
    requires var s := Run(config, oracle, actions);
             (client, id) in s.released && s.released[(client, id)] <= i < |s.host.log|
    ensures !RD.IsFor(Run(config, oracle, actions).host.log[i], client, id)
  {
    RunKeepsInv(config, oracle, actions);
  }

  /** Conservation: first sends that were accepted are either acknowledged or pending. */
  lemma ReliableCountersBalance(config: Config, oracle: Oracle, actions: seq<Action>)
    requires Legal(oracle, actions)
    ensures var h := Run(config, oracle, actions).host;
            h.stats.sent - h.stats.resent == h.stats.eventAcks + RD.TotalPending(h.clients, h.states)
  {
    RunKeepsInv(config, oracle, actions);
  }

  /** Pacing and cap over whole runs, for pending and acknowledged events alike. */
  lemma CopiesAreSpacedAndCapped(config: Config, oracle: Oracle, actions: seq<Action>, client: ClientId, id: EventId)
    requires Legal(oracle, actions)
    ensures RD.SpacedAndCapped(RD.Copies(Run(config, oracle, actions).host.log, client, id), config)
  {
    RunKeepsInv(config, oracle, actions);
    RD.BackoffBound(Run(config, oracle, actions).host, config, Run(config, oracle, actions).released, client, id);
  }

  lemma InterestFacts(h: State, applied: SD.Applied, client: ClientId)
    requires SD.Inv(h, applied)
    ensures SD.Folded(h.log, client) == Ids(SD.LastSent(h.log, client))
    ensures client in h.states ==> h.states[client].known == SD.Folded(h.log, client)
    ensures SD.Alternates(h.log, client)
    ensures h.stats.enter - h.stats.exit == SD.TotalKnown(h.clients, h.states)
    ensures h.stats.enter + h.stats.stay == h.stats.entitiesSent
  {
    assert SD.InterestOk(h);
  }

  /** For each client the enter and leave events issued so far fold to exactly the ids of
      the last snapshot the transport accepted for it, they alternate per entity, and the
      counters agree. */
  lemma InterestStreamAgrees(config: Config, oracle: Oracle, actions: seq<Action>, client: ClientId)
    requires Legal(oracle, actions)
    ensures var h := Run(config, oracle, actions).host;
            && SD.Folded(h.log, client) == Ids(SD.LastSent(h.log, client))
            && (client in h.states ==> h.states[client].known == SD.Folded(h.log, client))
            && SD.Alternates(h.log, client)
            && h.stats.enter - h.stats.exit == SD.TotalKnown(h.clients, h.states)
            && h.stats.enter + h.stats.stay == h.stats.entitiesSent
  {
    RunKeepsInv(config, oracle, actions);
    var s := Run(config, oracle, actions);
    InterestFacts(s.host, s.applied, client);
  }

  /** Every delta attempt found its baseline and was planned; full and delta snapshots
      are all the snapshots. */
  lemma SnapshotCountersBalance(config: Config, oracle: Oracle, actions: seq<Action>)
    requires Legal(oracle, actions)
    ensures var h := Run(config, oracle, actions).host;
            && h.stats.planned == SD.DeltaAttempts(h.log)
            && h.stats.full + h.stats.delta == h.stats.snapshotsSent
  {
    RunKeepsInv(config, oracle, actions);
  }

  /** The acknowledged id never goes back, and an accepted acknowledgement raises it. */
  lemma AckedIdsIncrease(config: Config, oracle: Oracle, s: System, action: Action, client: ClientId)
    requires Inv(config, s) && client in s.host.states
    ensures var t := Step(config, oracle, s, action);
            && client in t.host.states
            && t.host.states[client].acked >= s.host.states[client].acked
            && (action.DeliverAck? && action.ack.AckSnapshot? && action.ack.client == client
                && t.host.stats.snapshotAcks > s.host.stats.snapshotAcks
                ==> t.host.states[client].acked == action.ack.snapshotId > s.host.states[client].acked)
  {
    RD.InvWellFormed(s.host, config, s.released);
    if action.HostTick? {
      TickKeepsAcked(s.host, oracle, config, action.world, action.now, client);
    } else {
      MessagesRaiseAcked(config, oracle, s, action, client);
    }
  }

  lemma MessagesRaiseAcked(config: Config, oracle: Oracle, s: System, action: Action, client: ClientId)
    requires !action.HostTick? && client in s.host.states
    ensures var t := Step(config, oracle, s, action);
            && client in t.host.states
            && t.host.states[client].acked >= s.host.states[client].acked
            && (action.DeliverAck? && action.ack.AckSnapshot? && action.ack.client == client
                && t.host.stats.snapshotAcks > s.host.stats.snapshotAcks
                ==> t.host.states[client].acked == action.ack.snapshotId > s.host.states[client].acked)
  {
  }

  lemma {:induction false} InterestKeepsAcked(h: State, oracle: Oracle, world: World, client: ClientId, events: seq<DomainEvent>, n: nat, now: Time, c: ClientId)
    requires n <= |events| && c in h.states
    ensures var next := SendInterest(h, oracle, world, client, events, n, now);
            c in next.states && next.states[c].acked == h.states[c].acked
  {
    if n > 0 {
      InterestKeepsAcked(h, oracle, world, client, events, n - 1, now, c);
      SD.BroadcastOneIsReliable(SendInterest(h, oracle, world, client, events, n - 1, now), oracle, world, events[n - 1], [client], now);
      hide BroadcastOne;
    }
  }

  lemma TurnKeepsAcked(h: State, oracle: Oracle, config: Config, world: World, client: ClientId, now: Time, c: ClientId)
    requires c in h.states && client in h.states
    ensures var next := SnapshotTurn(h, oracle, config, world, client, now);
            c in next.states && next.states[c].acked == h.states[c].acked
  {
    if now >= h.states[client].nextSendAt && oracle.accepts(|h.log|) {
      var planned := PlannedFor(h, config, world, client);
      var tried := TrySnapshot(h, oracle, planned, client, now);
      hide PlannedFor;
      var frame := InterestFrame(tried, oracle, planned.snapshot, client);
      var moved := MoveInterest(tried, frame, planned.snapshot, client);
      var events := InterestEvents(frame, client);
      InterestKeepsAcked(moved, oracle, world, client, events, |events|, now, c);
      InterestKeepsAcked(moved, oracle, world, client, events, |events|, now, client);
      hide SendInterest, InterestEvents;
    }
  }

  lemma {:induction false} SnapshotsKeepAcked(h: State, oracle: Oracle, config: Config, world: World, n: nat, now: Time, c: ClientId)
    requires n <= |h.clients| && WellFormed(h) && c in h.states
    ensures var next := Snapshots(h, oracle, config, world, n, now);
            && c in next.states && next.states[c].acked == h.states[c].acked
            && (forall k :: k in h.clients ==> k in next.states)
  {
    if n > 0 {
      forall k | k in h.clients
        ensures k in Snapshots(h, oracle, config, world, n, now).states
      {
        SnapshotsKeepAcked(h, oracle, config, world, n - 1, now, k);
        assert h.clients[n - 1] in h.clients;
        TurnKeepsAcked(Snapshots(h, oracle, config, world, n - 1, now), oracle, config, world, h.clients[n - 1], now, k);
      }
      SnapshotsKeepAcked(h, oracle, config, world, n - 1, now, c);
      assert h.clients[n - 1] in h.clients;
      TurnKeepsAcked(Snapshots(h, oracle, config, world, n - 1, now), oracle, config, world, h.clients[n - 1], now, c);
      hide SnapshotTurn;
    }
  }

  lemma {:induction false} BroadcastKeepsAcked(h: State, oracle: Oracle, world: World, events: seq<DomainEvent>, n: nat, now: Time, c: ClientId)
    requires n <= |events| && c in h.states
    ensures var next := Broadcast(h, oracle, world, events, n, now);
            c in next.states && next.states[c].acked == h.states[c].acked
  {
    if n > 0 {
      BroadcastKeepsAcked(h, oracle, world, events, n - 1, now, c);
      SD.BroadcastOneIsReliable(Broadcast(h, oracle, world, events, n - 1, now), oracle, world, events[n - 1], h.clients, now);
      hide BroadcastOne;
    }
  }

  lemma TickKeepsAcked(h: State, oracle: Oracle, config: Config, world: World, now: Time, c: ClientId)
    requires WellFormed(h) && c in h.states
    ensures var next := Tick(h, oracle, config, world, now);
            c in next.states && next.states[c].acked == h.states[c].acked
  {
    SnapshotsKeepAcked(h, oracle, config, world, |h.clients|, now, c);
    var snapshotted := Snapshots(h, oracle, config, world, |h.clients|, now);
    BroadcastKeepsAcked(snapshotted, oracle, world, world.events, |world.events|, now, c);
    var told := Broadcast(snapshotted, oracle, world, world.events, |world.events|, now);
    var walk := oracle.order(|told.log|, 0, told.states.Keys);
    SD.ResendIsReliable(told, oracle, config, walk, |walk|, now);
    hide Resend, Broadcast, Snapshots;
  }
}
