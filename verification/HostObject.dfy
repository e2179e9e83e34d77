/** The server's replication host as the object it is: clients, per-client state objects,
    the baseline cache and counters updated in place
    (Server/src/ServerNetworkHost.cpp). Every method is proved against Host.dfy. */
module HostObject {
  import opened Basics
  import opened Replication
  import opened Events
  import opened ClientReplication
  import opened BaselineCache
  import opened Host
  import Planner
  import Delta
  import Interest

  /** The sending half of the transport: each call is answered and remembered. */
  class Transport {
    const accepts: nat -> bool
    var log: seq<Attempt>

    constructor (accepts: nat -> bool)
      ensures this.accepts == accepts && log == []
    {
      this.accepts := accepts;
      log := [];
    }

    method Send(peer: ClientId, message: Message, at: Time, resend: bool) returns (accepted: bool)
      modifies this
      ensures accepted == accepts(|old(log)|)
      ensures log == old(log) + [Attempt(peer, message, at, accepted, resend)]
    {
      accepted := accepts(|log|);
      log := log + [Attempt(peer, message, at, accepted, resend)];
    }
  }

  /** The counters after the delta placeholder of a snapshot has been considered. */
  function Counted(stats: Stats, cache: Cache, snapshot: Snapshot, client: ClientId): Stats {
    var baseline := Lookup(cache, client, snapshot.baselineId);
    if snapshot.deliveryKind == DeltaEligible && baseline.Some?
    then WithDelta(stats, Delta.PlanOf(snapshot, baseline.value))
    else stats
  }

  class ServerNetworkHost {
    const config: Config
    const order: Order
    const transport: Transport
    const cache: SnapshotBaselineCache
    var clients: seq<ClientId>
    var states: map<ClientId, ServerClientReplicationState>
    var nextEventId: EventId
    var nextSnapshotId: SnapshotId
    var stats: Stats

    function ClientObjects(): set<object>
      reads this`states
    {
      (set c | c in states :: states[c]) + (set c | c in states :: states[c].interest)
    }

    function Repr(): set<object>
      reads this`states
    {
      {this, transport, cache} + ClientObjects()
    }

    /** Each client has its own state object and interest tracker. */
    ghost predicate Valid()
      reads this`states
    {
      && cache.maxBaselines == config.maxBaselines
      && ValidOrder(order)
      && {this, transport, cache} !! ClientObjects()
      && (forall c, d :: c in states && d in states && c != d ==>
            states[c] != states[d] && states[c].interest != states[d].interest)
    }

    function States(): map<ClientId, ClientState>
      reads this`states, ClientObjects()
    {
      map c | c in states :: states[c].State()
    }

    function Model(): State
      reads this, transport, cache, ClientObjects()
    {
      State(clients, States(), cache.baselines, nextEventId, nextSnapshotId, transport.log, stats)
    }

    function Environment(): Oracle {
      Oracle(transport.accepts, order)
    }

    constructor (config: Config, transport: Transport, order: Order)
      requires transport.log == [] && ValidOrder(order)
      ensures Valid() && Model() == INITIAL && this.transport == transport && this.config == config && this.order == order
      ensures fresh(Repr() - {transport})
    {
      this.config, this.transport, this.order := config, transport, order;
      cache := new SnapshotBaselineCache(config.maxBaselines);
      clients, states := [], map[];
      nextEventId, nextSnapshotId, stats := 1, 1, NO_STATS;
    }

    lemma Fields()
      ensures var m := Model();
              && m.clients == clients && m.states.Keys == states.Keys && m.cache == cache.baselines
              && m.nextEventId == nextEventId && m.nextSnapshotId == nextSnapshotId
              && m.log == transport.log && m.stats == stats
      ensures this in Repr()
    {
    }

    method Count(counted: Stats)
      requires Valid()
      modifies this`stats
      ensures Valid() && Model() == old(Model()).(stats := counted)
    {
      stats := counted;
    }

    // --- one client's objects ---

    method AddClientState(client: ClientId)
      requires Valid() && client !in states
      modifies this`states
      ensures Valid() && fresh(ClientObjects() - old(ClientObjects()))
      ensures States() == old(States())[client := FRESH_CLIENT]
    {
      var state := new ServerClientReplicationState();
      ghost var before, table := states, States();
      states := states[client := state];
      forall o | o in ClientObjects()
        ensures o in old(ClientObjects()) || o == state || o == state.interest
      {
        if c :| c in states && (o == states[c] || o == states[c].interest) {
          assert c == client || c in before;
        }
      }
      assert States() == table[client := FRESH_CLIENT];
    }

    method AcknowledgeSnapshotFor(client: ClientId, id: SnapshotId) returns (accepted: bool)
      requires Valid()
      modifies ClientObjects()
      ensures var h := old(Model());
              && (accepted <==> client in h.states && id > h.states[client].acked)
              && Model() == if accepted then h.(states := h.states[client := h.states[client].(acked := id)]) else h
    {
      accepted := false;
      if client in states {
        accepted := states[client].AcknowledgeSnapshot(id);
      }
    }

    method AcknowledgeEventFor(client: ClientId, id: EventId) returns (erased: bool)
      requires Valid()
      modifies ClientObjects()
      ensures var h := old(Model());
              && (erased <==> client in h.states && id in h.states[client].pending)
              && Model() == if erased
                            then h.(states := h.states[client := h.states[client].(pending := h.states[client].pending - {id})])
                            else h
    {
      erased := false;
      if client in states {
        erased := states[client].AcknowledgeReliableEvent(id);
        if !erased {
          assert states[client].pending == old(states[client].pending);
        }
      }
    }

    method TrackFor(client: ClientId, event: NetworkEvent, now: Time)
      requires Valid()
      modifies ClientObjects()
      ensures var h := old(Model());
              Model() == if client in h.states
                         then h.(states := h.states[client := h.states[client].(pending := Tracked(h.states[client].pending, event, now))])
                         else h
    {
      hide Tracked;
      if client in states {
        states[client].TrackReliableEvent(event, now);
      }
    }

    method MarkSnapshotSent(client: ClientId, now: Time)
      requires Valid()
      modifies Repr()
      ensures Valid() && Repr() == old(Repr()) && clients == old(clients) && states == old(states)
      ensures Model() == MarkSent(old(Model()), config, client, now)
    {
      if client in states {
        states[client].MarkSnapshotSent(now, config.interval);
      }
    }

    method MoveInterestFor(client: ClientId, entities: seq<EntityState>) returns (frame: Interest.Frame)
      requires Valid() && client in states
      modifies ClientObjects()
      ensures var h := old(Model());
              && client in h.states
              && frame == FrameNow(h.states[client].known, entities, |h.log|, client)
              && Model() == h.(states := h.states[client := h.states[client].(known := Ids(entities))])
    {
      hide Interest.FrameFor;
      var known := states[client].interest.known;
      var walk := order(|transport.log|, client, known);
      assert Enumerates(walk, known);
      frame := states[client].interest.Update(entities, walk);
    }

    function FrameNow(known: set<EntityId>, entities: seq<EntityState>, major: nat, client: ClientId): Interest.Frame {
      Interest.FrameFor(known, entities, order(major, client, known))
    }

    // --- incoming messages ---

    method HandleLogin(client: ClientId, admitted: bool)
      requires Valid()
      modifies Repr()
      ensures Valid() && fresh(Repr() - old(Repr()))
      ensures Model() == if admitted then Login(old(Model()), client) else old(Model())
    {
      if admitted && client !in clients {
        clients := clients + [client];
        if client !in states {
          AddClientState(client);
        }
      }
    }

    method HandleSnapshotAck(client: ClientId, id: SnapshotId)
      requires Valid()
      modifies Repr()
      ensures Valid() && Repr() == old(Repr())
      ensures Model() == SnapshotAck(old(Model()), client, id)
    {
      Fields();
      hide Valid, Model, States, Lookup;
      var accepted := false;
      var found := cache.Find(client, id);
      if found.Some? {
        accepted := AcknowledgeSnapshotFor(client, id);
      }
      Fields();
      Count(if accepted then stats.(snapshotAcks := stats.snapshotAcks + 1)
            else stats.(staleSnapshotAcks := stats.staleSnapshotAcks + 1));
    }

    method HandleNetworkEventAck(client: ClientId, id: EventId)
      requires Valid()
      modifies Repr()
      ensures Valid() && Repr() == old(Repr())
      ensures Model() == EventAck(old(Model()), client, id)
    {
      hide Valid, Model, States;
      var erased := AcknowledgeEventFor(client, id);
      Fields();
      Count(if erased then stats.(eventAcks := stats.eventAcks + 1)
            else stats.(staleEventAcks := stats.staleEventAcks + 1));
    }

    // --- reliable events ---

    method Transmit(client: ClientId, message: Message, now: Time, resend: bool) returns (accepted: bool)
      requires Valid()
      modifies Repr()
      ensures Valid() && Repr() == old(Repr()) && clients == old(clients) && states == old(states)
      ensures accepted == transport.accepts(|old(Model()).log|)
      ensures var h := old(Model());
              Model() == h.(log := h.log + [Attempt(client, message, now, accepted, resend)])
    {
      assert this !in ClientObjects() && transport !in ClientObjects() && cache !in ClientObjects();
      hide Valid, States, ClientObjects;
      accepted := transport.Send(client, message, now, resend);
    }

    method SendReliableEvent(client: ClientId, event: NetworkEvent, now: Time, resend: bool)
      requires Valid()
      modifies Repr()
      ensures Valid() && Repr() == old(Repr()) && clients == old(clients) && states == old(states)
      ensures Model() == SendReliable(old(Model()), Environment(), client, event, now, resend)
    {
      var accepted := Transmit(client, EventMessage(event), now, resend);
      if accepted {
        hide Valid, Model, States, Tracked;
        TrackFor(client, event, now);
        Fields();
        Count(stats.(sent := stats.sent + 1, resent := stats.resent + (if resend then 1 else 0)));
      }
    }

    method TakeEventId() returns (id: EventId)
      requires Valid()
      modifies this`nextEventId
      ensures Valid()
      ensures id == old(nextEventId) && Model() == old(Model()).(nextEventId := id + 1)
    {
      id := nextEventId;
      nextEventId := nextEventId + 1;
    }

    /** Number one domain event and send it to those of the recipients it is for. */
    method PublishEvent(world: World, event: DomainEvent, recipients: seq<ClientId>, now: Time)
      requires Valid()
      modifies Repr()
      ensures Valid() && Repr() == old(Repr()) && clients == old(clients) && states == old(states)
      ensures Model() == BroadcastOne(old(Model()), Environment(), world, event, recipients, now)
    {
      var id := TakeEventId();
      assert id == old(Model()).nextEventId;
      var networkEvent := ToNetworkEvent(id, world.tick, world.time, event);
      hide Valid, Model, SendReliable;
      if networkEvent.None? {
        return;
      }
      var e := networkEvent.value;
      var only := ObserverOnly(e.payload);
      ghost var numbered := Model();
      var i := 0;
      while i < |recipients|
        invariant i <= |recipients|
        invariant Valid() && Repr() == old(Repr()) && clients == old(clients) && states == old(states)
        invariant Model() == SendToClients(numbered, Environment(), recipients, i, e, now)
      {
        if only.None? || only.value == recipients[i] {
          SendReliableEvent(recipients[i], e, now, false);
        }
        i := i + 1;
      }
    }

    method BroadcastReliableEvents(world: World, events: seq<DomainEvent>, now: Time)
      requires Valid()
      modifies Repr()
      ensures Valid() && Repr() == old(Repr()) && clients == old(clients) && states == old(states)
      ensures Model() == Broadcast(old(Model()), Environment(), world, events, |events|, now)
    {
      var i := 0;
      while i < |events|
        invariant i <= |events|
        invariant Valid() && Repr() == old(Repr()) && clients == old(clients) && states == old(states)
        invariant Model() == Broadcast(old(Model()), Environment(), world, events, i, now)
      {
        PublishEvent(world, events[i], clients, now);
        i := i + 1;
      }
    }

    method SendInterestEvents(client: ClientId, world: World, frame: Interest.Frame, now: Time)
      requires Valid()
      modifies Repr()
      ensures Valid() && Repr() == old(Repr()) && clients == old(clients) && states == old(states)
      ensures var events := InterestEvents(frame, client);
              Model() == SendInterest(old(Model()), Environment(), world, client, events, |events|, now)
    {
      ghost var events := InterestEvents(frame, client);
      hide Valid, Model, BroadcastOne, Repr;
      var i := 0;
      while i < |frame.entered|
        invariant i <= |frame.entered|
        invariant Valid() && Repr() == old(Repr()) && clients == old(clients) && states == old(states)
        invariant Model() == SendInterest(old(Model()), Environment(), world, client, events, i, now)
      {
        PublishEvent(world, EnteredInterest(frame.entered[i], client), [client], now);
        i := i + 1;
      }
      var j := 0;
      while j < |frame.exited|
        invariant j <= |frame.exited|
        invariant Valid() && Repr() == old(Repr()) && clients == old(clients) && states == old(states)
        invariant Model() == SendInterest(old(Model()), Environment(), world, client, events, |frame.entered| + j, now)
      {
        PublishEvent(world, LeftInterest(frame.exited[j], client), [client], now);
        j := j + 1;
      }
    }

    method ResendClientEvents(client: ClientId, now: Time)
      requires Valid() && client in states
      modifies Repr()
      ensures Valid() && Repr() == old(Repr()) && clients == old(clients) && states == old(states)
      ensures Model() == ResendClient(old(Model()), Environment(), config, client, now)
    {
      var walk := order(|transport.log|, client, states[client].pending.Keys);
      assert Enumerates(walk, states[client].pending.Keys);
      var due := states[client].ReliableEventsDueForResend(walk, now, config.resendBase, config.maxSendCount);
      assert due == DueFor(Model(), Environment(), config, client, now);
      var i := 0;
      while i < |due|
        invariant i <= |due|
        invariant Valid() && Repr() == old(Repr()) && clients == old(clients) && states == old(states)
        invariant Model() == ResendList(old(Model()), Environment(), client, due, i, now)
      {
        SendReliableEvent(client, due[i], now, true);
        i := i + 1;
      }
    }

    method WalkClients() returns (walk: seq<ClientId>)
      requires Valid()
      ensures walk == order(|Model().log|, 0, Model().states.Keys)
      ensures forall c :: c in walk ==> c in states
    {
      walk := order(|transport.log|, 0, states.Keys);
      assert Enumerates(walk, states.Keys);
      assert states.Keys == Model().states.Keys;
    }

    method ResendAlong(walk: seq<ClientId>, now: Time)
      requires Valid() && (forall c :: c in walk ==> c in states)
      modifies Repr()
      ensures Valid() && Repr() == old(Repr()) && clients == old(clients) && states == old(states)
      ensures Model() == Resend(old(Model()), Environment(), config, walk, |walk|, now)
    {
      hide Valid, Model, Repr, ResendClient, Environment;
      var i := 0;
      while i < |walk|
        invariant i <= |walk|
        invariant Valid() && Repr() == old(Repr()) && clients == old(clients) && states == old(states)
        invariant Model() == Resend(old(Model()), Environment(), config, walk, i, now)
      {
        assert walk[i] in walk;
        ResendClientEvents(walk[i], now);
        i := i + 1;
      }
    }

    method ResendPendingReliableEvents(now: Time)
      requires Valid()
      modifies Repr()
      ensures Valid() && Repr() == old(Repr()) && clients == old(clients) && states == old(states)
      ensures var before := old(Model());
              var walk := order(|before.log|, 0, before.states.Keys);
              Model() == Resend(before, Environment(), config, walk, |walk|, now)
    {
      var walk := WalkClients();
      hide Valid, Model, Repr, ResendClient, Environment;
      ResendAlong(walk, now);
    }

    // --- snapshots ---

    method PlanSnapshotFor(client: ClientId, world: World) returns (decision: Decision, planned: Planner.Planned)
      requires Valid()
      ensures Valid() && Model() == old(Model())
      ensures decision == DecisionFor(Model(), client)
      ensures planned == PlannedFor(Model(), config, world, client)
    {
      var requested := if client in states then states[client].acked else 0;
      assert States().Keys == states.Keys;
      decision := cache.DecideBaseline(client, requested);
      var snapshot := Snapshot(nextSnapshotId, decision.effective, decision.deliveryKind, world.tick, world.time,
                               world.AckedInput(client), world.Visible(client));
      planned := Planner.Plan(config.planner, client, snapshot);
    }

    /** Count the delta placeholder of a snapshot that is about to be sent. */
    method CountDelta(snapshot: Snapshot, client: ClientId)
      requires Valid()
      modifies this`stats
      ensures Valid()
      ensures var h := old(Model());
              Model() == h.(stats := Counted(h.stats, h.cache, snapshot, client))
    {
      Fields();
      hide Valid, Model, Lookup, Delta.PlanOf, WithDelta;
      if snapshot.deliveryKind == DeltaEligible {
        var baseline := cache.Find(client, snapshot.baselineId);
        if baseline.Some? {
          var plan := Delta.PlanSnapshotDelta(snapshot, baseline.value);
          Count(WithDelta(stats, plan));
        }
      }
    }

    method TakeSnapshotId()
      requires Valid()
      modifies this`nextSnapshotId
      ensures Valid()
      ensures Model() == old(Model()).(nextSnapshotId := old(Model()).nextSnapshotId + 1)
    {
      nextSnapshotId := nextSnapshotId + 1;
    }

    method TrySnapshotSend(planned: Planner.Planned, client: ClientId, now: Time) returns (accepted: bool)
      requires Valid()
      modifies Repr()
      ensures Valid() && Repr() == old(Repr()) && clients == old(clients) && states == old(states)
      ensures accepted == transport.accepts(|old(Model()).log|)
      ensures Model() == TrySnapshot(old(Model()), Environment(), planned, client, now)
    {
      hide Valid, Model, States, Delta.PlanOf, Lookup, WithDelta;
      CountDelta(planned.snapshot, client);
      TakeSnapshotId();
      accepted := Transmit(client, SnapshotMessage(planned.snapshot), now, false);
    }

    method ShiftInterestFor(client: ClientId, world: World, snapshot: Snapshot, now: Time)
      requires Valid()
      modifies Repr()
      ensures Valid() && Repr() == old(Repr()) && clients == old(clients) && states == old(states)
      ensures Model() == ShiftInterest(old(Model()), Environment(), world, snapshot, client, now)
    {
      assert States().Keys == states.Keys;
      if client in states {
        var frame := MoveInterestTo(client, snapshot);
        hide Valid, Model, Repr, MoveInterest, InterestFrame, InterestEvents;
        SendInterestEvents(client, world, frame, now);
      }
    }

    method MoveInterestTo(client: ClientId, snapshot: Snapshot) returns (frame: Interest.Frame)
      requires Valid() && client in states
      modifies Repr()
      ensures Valid() && Repr() == old(Repr()) && clients == old(clients) && states == old(states)
      ensures client in old(Model()).states
      ensures frame == InterestFrame(old(Model()), Environment(), snapshot, client)
      ensures Model() == MoveInterest(old(Model()), frame, snapshot, client)
    {
      hide Valid, Model, States, Interest.FrameFor;
      frame := MoveInterestFor(client, snapshot.entities);
      Fields();
      Count(stats.(enter := stats.enter + |frame.entered|, stay := stats.stay + |frame.stayed|,
                   exit := stats.exit + |frame.exited|));
    }

    method CacheSnapshot(client: ClientId, snapshot: Snapshot)
      requires Valid()
      modifies Repr()
      ensures Valid() && Repr() == old(Repr()) && clients == old(clients) && states == old(states)
      ensures var h := old(Model());
              Model() == h.(cache := Stored(h.cache, client, snapshot, config.maxBaselines))
    {
      assert this !in ClientObjects() && transport !in ClientObjects() && cache !in ClientObjects();
      assert cache.maxBaselines == config.maxBaselines;
      hide Valid, States, ClientObjects, Stored;
      cache.Store(client, snapshot);
    }

    method RecordSnapshotFor(planned: Planner.Planned, decision: Decision, client: ClientId)
      requires Valid()
      modifies Repr()
      ensures Valid() && Repr() == old(Repr()) && clients == old(clients) && states == old(states)
      ensures Model() == RecordSnapshot(old(Model()), config, planned, decision, client)
    {
      hide Stored, States;
      var snapshot := planned.snapshot;
      CacheSnapshot(client, snapshot);
      Fields();
      hide Valid, Model;
      Count(stats.(
        snapshotsSent := stats.snapshotsSent + 1,
        delta := stats.delta + (if snapshot.deliveryKind == DeltaEligible then 1 else 0),
        full := stats.full + (if snapshot.deliveryKind == DeltaEligible then 0 else 1),
        misses := stats.misses + (if decision.requested != 0 && !decision.available then 1 else 0),
        entitiesSent := stats.entitiesSent + planned.stats.output,
        entitiesDropped := stats.entitiesDropped + planned.stats.dropped));
    }

    method SendSnapshot(client: ClientId, world: World, now: Time) returns (sent: bool)
      requires Valid()
      modifies Repr()
      ensures Valid() && Repr() == old(Repr()) && clients == old(clients) && states == old(states)
      ensures sent == transport.accepts(|old(Model()).log|)
      ensures var before := old(Model());
              var planned := PlannedFor(before, config, world, client);
              var tried := TrySnapshot(before, Environment(), planned, client, now);
              Model() == if !sent then tried
                         else RecordSnapshot(ShiftInterest(tried, Environment(), world, planned.snapshot, client, now),
                                             config, planned, DecisionFor(before, client), client)
    {
      hide Valid, Model, Repr, PlannedFor, TrySnapshot, ShiftInterest, RecordSnapshot, DecisionFor;
      var decision, planned := PlanSnapshotFor(client, world);
      sent := TrySnapshotSend(planned, client, now);
      if !sent {
        return;
      }
      ShiftInterestFor(client, world, planned.snapshot, now);
      RecordSnapshotFor(planned, decision, client);
    }

    method TurnFor(client: ClientId, world: World, now: Time)
      requires Valid()
      modifies Repr()
      ensures Valid() && Repr() == old(Repr()) && clients == old(clients) && states == old(states)
      ensures Model() == SnapshotTurn(old(Model()), Environment(), config, world, client, now)
    {
      var should := true;
      assert States().Keys == states.Keys;
      if client in states {
        should := states[client].ShouldSendSnapshot(now);
      }
      if !should {
        Count(stats.(skipped := stats.skipped + 1));
        return;
      }
      assert !(client in Model().states && now < Model().states[client].nextSendAt);
      hide Valid, Model, Repr, PlannedFor, TrySnapshot, ShiftInterest, RecordSnapshot, MarkSent, DecisionFor;
      var sent := SendSnapshot(client, world, now);
      if sent {
        MarkSnapshotSent(client, now);
      }
    }

    method SendSnapshots(world: World, now: Time)
      requires Valid()
      modifies Repr()
      ensures Valid() && Repr() == old(Repr()) && clients == old(clients) && states == old(states)
      ensures clients == old(Model()).clients
      ensures Model() == Snapshots(old(Model()), Environment(), config, world, |clients|, now)
    {
      assert clients == Model().clients;
      hide Valid, Model, Repr, SnapshotTurn, Environment;
      var i := 0;
      while i < |clients|
        invariant i <= |clients|
        invariant Valid() && Repr() == old(Repr()) && clients == old(clients) && states == old(states)
        invariant Model() == Snapshots(old(Model()), Environment(), config, world, i, now)
      {
        TurnFor(clients[i], world, now);
        i := i + 1;
      }
    }

    /** A whole host tick after the simulation step: snapshots to every client whose turn it
        is, then the tick's events, then whatever is due again. */
    method TickAndSendSnapshots(world: World, now: Time)
      requires Valid()
      modifies Repr()
      ensures Valid() && Repr() == old(Repr()) && clients == old(clients) && states == old(states)
      ensures Model() == Tick(old(Model()), Environment(), config, world, now)
    {
      hide Valid, Model, Repr, Snapshots, Broadcast, Resend, Environment;
      assert Environment().order == order by { EnvironmentFacts(); }
      SendSnapshots(world, now);
      BroadcastReliableEvents(world, world.events, now);
      ResendPendingReliableEvents(now);
    }

    lemma EnvironmentFacts()
      ensures Environment().order == order && Environment().accepts == transport.accepts
    {
    }
  }
}
