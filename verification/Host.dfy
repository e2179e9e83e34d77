/** The server's replication host as functions on values: what each operation of
    Server/src/ServerNetworkHost.cpp does to the host state and to the log of
    transport sends. HostObject.dfy holds the class that updates this state in place. */
module Host {
  import opened Basics
  import opened Replication
  import opened Events
  import Planner
  import Delta
  import Interest
  import opened BaselineCache
  import opened ClientReplication

  datatype Message =
    | SnapshotMessage(snapshot: Snapshot)
    | EventMessage(event: NetworkEvent)

  /** One call of the transport's send, with its answer. */
  datatype Attempt = Attempt(
    peer: ClientId, message: Message, at: Time, accepted: bool, resend: bool)

  datatype Stats = Stats(
    snapshotAcks: nat, staleSnapshotAcks: nat,
    sent: nat, resent: nat, eventAcks: nat, staleEventAcks: nat,
    snapshotsSent: nat, skipped: nat, full: nat, delta: nat, misses: nat,
    planned: nat, added: nat, changed: nat, removed: nat, same: nat,
    entitiesSent: nat, entitiesDropped: nat, enter: nat, stay: nat, exit: nat)

  const NO_STATS := Stats(0, 0, 0, 0, 0, 0, 0, 0, 0, 0, 0, 0, 0, 0, 0, 0, 0, 0, 0, 0, 0)

  datatype Config = Config(
    planner: Planner.Config, maxBaselines: nat, interval: Time, resendBase: Time, maxSendCount: nat)

  datatype State = State(
    clients: seq<ClientId>, states: map<ClientId, ClientState>, cache: Cache,
    nextEventId: EventId, nextSnapshotId: SnapshotId, log: seq<Attempt>, stats: Stats)

  const INITIAL := State([], map[], map[], 1, 1, [], NO_STATS)

  /** What the simulation shows the host after a tick. */
  datatype World = World(
    tick: nat, time: Time, ackedInput: map<ClientId, Sequence>,
    visible: map<ClientId, seq<EntityState>>, events: seq<DomainEvent>)
  {
    function AckedInput(client: ClientId): Sequence {
      if client in ackedInput then ackedInput[client] else 0
    }
    function Visible(client: ClientId): seq<EntityState> {
      if client in visible then visible[client] else []
    }
  }

  /** What the host does not decide: which sends the transport accepts, and the
      order in which hash containers are walked. */
  datatype Oracle = Oracle(accepts: nat -> bool, order: Order)

  // --- incoming messages ---

  function Login(h: State, client: ClientId): State {
    if client in h.clients then h
    else h.(clients := h.clients + [client],
            states := if client in h.states then h.states else h.states[client := FRESH_CLIENT])
  }

  function SnapshotAck(h: State, client: ClientId, id: SnapshotId): State {
    if client in h.states && Lookup(h.cache, client, id).Some? && id > h.states[client].acked
    then h.(states := h.states[client := h.states[client].(acked := id)],
            stats := h.stats.(snapshotAcks := h.stats.snapshotAcks + 1))
    else h.(stats := h.stats.(staleSnapshotAcks := h.stats.staleSnapshotAcks + 1))
  }

  function EventAck(h: State, client: ClientId, id: EventId): State {
    if client in h.states && id in h.states[client].pending
    then h.(states := h.states[client := h.states[client].(pending := h.states[client].pending - {id})],
            stats := h.stats.(eventAcks := h.stats.eventAcks + 1))
    else h.(stats := h.stats.(staleEventAcks := h.stats.staleEventAcks + 1))
  }

  // --- reliable events ---

  function SendReliable(h: State, oracle: Oracle, client: ClientId, event: NetworkEvent, now: Time, resend: bool): State {
    var accepted := oracle.accepts(|h.log|);
    var tried := h.(log := h.log + [Attempt(client, EventMessage(event), now, accepted, resend)]);
    if !accepted then tried
    else tried.(
      states := if client in h.states
                then h.states[client := h.states[client].(pending := Tracked(h.states[client].pending, event, now))]
                else h.states,
      stats := h.stats.(sent := h.stats.sent + 1, resent := h.stats.resent + (if resend then 1 else 0)))
  }

  /** Send one event to the first n of the clients it is for. */
  function SendToClients(h: State, oracle: Oracle, clients: seq<ClientId>, n: nat, event: NetworkEvent, now: Time): State
    requires n <= |clients|
  {
    if n == 0 then h
    else
      var before := SendToClients(h, oracle, clients, n - 1, event, now);
      var only := ObserverOnly(event.payload);
      if only.Some? && only.value != clients[n - 1] then before
      else SendReliable(before, oracle, clients[n - 1], event, now, false)
  }

  /** Give one domain event the next id and, if it has a network form, send it. */
  function BroadcastOne(h: State, oracle: Oracle, world: World, event: DomainEvent, clients: seq<ClientId>, now: Time): State {
    var numbered := h.(nextEventId := h.nextEventId + 1);
    match ToNetworkEvent(h.nextEventId, world.tick, world.time, event)
    case None => numbered
    case Some(e) => SendToClients(numbered, oracle, clients, |clients|, e, now)
  }

  function Broadcast(h: State, oracle: Oracle, world: World, events: seq<DomainEvent>, n: nat, now: Time): State
    requires n <= |events|
  {
    if n == 0 then h
    else BroadcastOne(Broadcast(h, oracle, world, events, n - 1, now), oracle, world, events[n - 1], h.clients, now)
  }

  function ResendList(h: State, oracle: Oracle, client: ClientId, due: seq<NetworkEvent>, n: nat, now: Time): State
    requires n <= |due|
  {
    if n == 0 then h
    else SendReliable(ResendList(h, oracle, client, due, n - 1, now), oracle, client, due[n - 1], now, true)
  }

  function DueFor(h: State, oracle: Oracle, config: Config, client: ClientId, now: Time): seq<NetworkEvent> {
    if client !in h.states then []
    else
      var pending := h.states[client].pending;
      var walk := oracle.order(|h.log|, client, pending.Keys);
      if forall id :: id in walk ==> id in pending
      then DueEvents(pending, walk, now, config.resendBase, config.maxSendCount)
      else []
  }

  function ResendClient(h: State, oracle: Oracle, config: Config, client: ClientId, now: Time): State {
    var due := DueFor(h, oracle, config, client, now);
    ResendList(h, oracle, client, due, |due|, now)
  }

  function Resend(h: State, oracle: Oracle, config: Config, walk: seq<ClientId>, n: nat, now: Time): State
    requires n <= |walk|
  {
    if n == 0 then h
    else ResendClient(Resend(h, oracle, config, walk, n - 1, now), oracle, config, walk[n - 1], now)
  }

  // --- snapshots ---

  function InterestEvents(frame: Interest.Frame, client: ClientId): seq<DomainEvent> {
    seq(|frame.entered|, k requires 0 <= k < |frame.entered| => EnteredInterest(frame.entered[k], client))
    + seq(|frame.exited|, k requires 0 <= k < |frame.exited| => LeftInterest(frame.exited[k], client))
  }

  function SendInterest(h: State, oracle: Oracle, world: World, client: ClientId, events: seq<DomainEvent>, n: nat, now: Time): State
    requires n <= |events|
  {
    if n == 0 then h
    else BroadcastOne(SendInterest(h, oracle, world, client, events, n - 1, now), oracle, world, events[n - 1], [client], now)
  }

  function WithDelta(stats: Stats, plan: Delta.Plan): Stats {
    if !plan.baselineMatched then stats
    else stats.(planned := stats.planned + 1,
                added := stats.added + plan.added, changed := stats.changed + plan.changed,
                removed := stats.removed + plan.removed, same := stats.same + plan.same)
  }

  function PlannedFor(h: State, config: Config, world: World, client: ClientId): Planner.Planned {
    var decision := DecisionFor(h, client);
    Planner.PlanOf(config.planner, client,
                   Snapshot(h.nextSnapshotId, decision.effective, decision.deliveryKind, world.tick, world.time,
                            world.AckedInput(client), world.Visible(client)))
  }

  function DecisionFor(h: State, client: ClientId): Decision {
    Decide(h.cache, client, if client in h.states then h.states[client].acked else 0)
  }

  /** The send call and what precedes it: a fresh snapshot id is spent and the delta
      placeholder counted whether or not the transport accepts. */
  function TrySnapshot(h: State, oracle: Oracle, planned: Planner.Planned, client: ClientId, now: Time): State {
    var snapshot := planned.snapshot;
    var baseline := Lookup(h.cache, client, snapshot.baselineId);
    h.(nextSnapshotId := h.nextSnapshotId + 1,
       stats := if snapshot.deliveryKind == DeltaEligible && baseline.Some?
                then WithDelta(h.stats, Delta.PlanOf(snapshot, baseline.value))
                else h.stats,
       log := h.log + [Attempt(client, SnapshotMessage(snapshot), now, oracle.accepts(|h.log|), false)])
  }

  function InterestFrame(h: State, oracle: Oracle, snapshot: Snapshot, client: ClientId): Interest.Frame
    requires client in h.states
  {
    var known := h.states[client].known;
    Interest.FrameFor(known, snapshot.entities, oracle.order(|h.log|, client, known))
  }

  function MoveInterest(h: State, frame: Interest.Frame, snapshot: Snapshot, client: ClientId): State
    requires client in h.states
  {
    h.(states := h.states[client := h.states[client].(known := Ids(snapshot.entities))],
       stats := h.stats.(enter := h.stats.enter + |frame.entered|, stay := h.stats.stay + |frame.stayed|,
                         exit := h.stats.exit + |frame.exited|))
  }

  /** After an accepted send: move the interest set and announce the difference. */
  function ShiftInterest(h: State, oracle: Oracle, world: World, snapshot: Snapshot, client: ClientId, now: Time): State {
    if client !in h.states then h
    else
      var frame := InterestFrame(h, oracle, snapshot, client);
      var events := InterestEvents(frame, client);
      SendInterest(MoveInterest(h, frame, snapshot, client), oracle, world, client, events, |events|, now)
  }

  function RecordSnapshot(h: State, config: Config, planned: Planner.Planned, decision: Decision, client: ClientId): State {
    var snapshot := planned.snapshot;
    h.(cache := Stored(h.cache, client, snapshot, config.maxBaselines),
       stats := h.stats.(
         snapshotsSent := h.stats.snapshotsSent + 1,
         delta := h.stats.delta + (if snapshot.deliveryKind == DeltaEligible then 1 else 0),
         full := h.stats.full + (if snapshot.deliveryKind == DeltaEligible then 0 else 1),
         misses := h.stats.misses + (if decision.requested != 0 && !decision.available then 1 else 0),
         entitiesSent := h.stats.entitiesSent + planned.stats.output,
         entitiesDropped := h.stats.entitiesDropped + planned.stats.dropped))
  }

  function MarkSent(h: State, config: Config, client: ClientId, now: Time): State {
    if client !in h.states then h
    else h.(states := h.states[client := h.states[client].(nextSendAt := now + config.interval)])
  }

  function SnapshotTurn(h: State, oracle: Oracle, config: Config, world: World, client: ClientId, now: Time): State {
    if client in h.states && now < h.states[client].nextSendAt
    then h.(stats := h.stats.(skipped := h.stats.skipped + 1))
    else
      var planned := PlannedFor(h, config, world, client);
      var tried := TrySnapshot(h, oracle, planned, client, now);
      if !oracle.accepts(|h.log|) then tried
      else
        var shifted := ShiftInterest(tried, oracle, world, planned.snapshot, client, now);
        MarkSent(RecordSnapshot(shifted, config, planned, DecisionFor(h, client), client), config, client, now)
  }

  function Snapshots(h: State, oracle: Oracle, config: Config, world: World, n: nat, now: Time): State
    requires n <= |h.clients|
  {
    if n == 0 then h
    else SnapshotTurn(Snapshots(h, oracle, config, world, n - 1, now), oracle, config, world, h.clients[n - 1], now)
  }

  /** A whole host tick, the simulation step itself apart. */
  function Tick(h: State, oracle: Oracle, config: Config, world: World, now: Time): State {
    var snapshotted := Snapshots(h, oracle, config, world, |h.clients|, now);
    var told := Broadcast(snapshotted, oracle, world, world.events, |world.events|, now);
    var walk := oracle.order(|told.log|, 0, told.states.Keys);
    Resend(told, oracle, config, walk, |walk|, now)
  }

  // --- clients and their states ---

  /** Clients are listed once and are exactly those with a state. */
  ghost predicate WellFormed(h: State) {
    && Distinct(h.clients)
    && (forall c :: c in h.clients <==> c in h.states)
  }

  lemma LoginIsWellFormed(h: State, client: ClientId)
    requires WellFormed(h) && client !in h.clients
    ensures WellFormed(Login(h, client)) && client !in h.states
  {
    assert client !in h.states;
    forall c
      ensures c in h.clients + [client] <==> c in h.clients || c == client
    {
    }
  }
}
