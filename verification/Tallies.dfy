/** The host's counters are tallies of its log, and what single messages do to its state. */
module Tallies {
  import opened Basics
  import opened Replication
  import opened Events
  import opened BaselineCache
  import opened ClientReplication
  import opened Host
  import opened Protocol
  import opened EventTurns
  import opened SnapshotTurns
  import Delta
  import Planner
  import RD = ReliableDelivery
  import SD = SnapshotDelivery

  datatype Counter = SentEvents | ResentEvents | SentSnapshots | SentDeltas | SentEntities

  /** What one attempt adds to a counter. */
  function Weight(a: Attempt, counter: Counter): nat {
    if !a.accepted then 0
    else
      match counter
      case SentEvents => if a.message.EventMessage? then 1 else 0
      case ResentEvents => if a.message.EventMessage? && a.resend then 1 else 0
      case SentSnapshots => if a.message.SnapshotMessage? then 1 else 0
      case SentDeltas => if a.message.SnapshotMessage? && a.message.snapshot.deliveryKind == DeltaEligible then 1 else 0
      case SentEntities => if a.message.SnapshotMessage? then |a.message.snapshot.entities| else 0
  }

  function Tally(log: seq<Attempt>, counter: Counter): nat {
    if log == [] then 0 else Tally(log[..|log| - 1], counter) + Weight(log[|log| - 1], counter)
  }

  function Reading(stats: Stats, counter: Counter): nat {
    match counter
    case SentEvents => stats.sent
    case ResentEvents => stats.resent
    case SentSnapshots => stats.snapshotsSent
    case SentDeltas => stats.delta
    case SentEntities => stats.entitiesSent
  }

  /** The counter moves with the log, up to an amount not yet counted. */
  ghost predicate Counts(h: State, next: State, counter: Counter, uncounted: int) {
    Reading(next.stats, counter) - Reading(h.stats, counter) == Tally(next.log, counter) - Tally(h.log, counter) - uncounted
  }

  lemma CountsTransitive(h: State, before: State, next: State, counter: Counter, a: int, b: int)
    requires Counts(h, before, counter, a) && Counts(before, next, counter, b)
    ensures Counts(h, next, counter, a + b)
  {
  }

  lemma TallySnoc(log: seq<Attempt>, a: Attempt, counter: Counter)
    ensures Tally(log + [a], counter) == Tally(log, counter) + Weight(a, counter)
  {
    assert (log + [a])[..|log|] == log;
  }

  lemma SendCounts(h: State, oracle: Oracle, client: ClientId, event: NetworkEvent, now: Time, resend: bool, counter: Counter)
    ensures Counts(h, SendReliable(h, oracle, client, event, now, resend), counter, 0)
  {
    TallySnoc(h.log, Attempt(client, EventMessage(event), now, oracle.accepts(|h.log|), resend), counter);
    hide Tally;
  }

  lemma {:induction false} SendToClientsCounts(h: State, oracle: Oracle, clients: seq<ClientId>, n: nat, event: NetworkEvent, now: Time, counter: Counter)
    requires n <= |clients|
    ensures Counts(h, SendToClients(h, oracle, clients, n, event, now), counter, 0)
  {
    if n > 0 {
      SendToClientsCounts(h, oracle, clients, n - 1, event, now, counter);
      SendCounts(SendToClients(h, oracle, clients, n - 1, event, now), oracle, clients[n - 1], event, now, false, counter);
      hide SendReliable, Tally;
    }
  }

  lemma BroadcastOneCounts(h: State, oracle: Oracle, world: World, event: DomainEvent, clients: seq<ClientId>, now: Time, counter: Counter)
    ensures Counts(h, BroadcastOne(h, oracle, world, event, clients, now), counter, 0)
  {
    var form := ToNetworkEvent(h.nextEventId, world.tick, world.time, event);
    if form.Some? {
      SendToClientsCounts(h.(nextEventId := h.nextEventId + 1), oracle, clients, |clients|, form.value, now, counter);
    }
    hide SendToClients, Tally;
  }

  lemma {:induction false} BroadcastCounts(h: State, oracle: Oracle, world: World, events: seq<DomainEvent>, n: nat, now: Time, counter: Counter)
    requires n <= |events|
    ensures Counts(h, Broadcast(h, oracle, world, events, n, now), counter, 0)
  {
    if n > 0 {
      BroadcastCounts(h, oracle, world, events, n - 1, now, counter);
      BroadcastOneCounts(Broadcast(h, oracle, world, events, n - 1, now), oracle, world, events[n - 1], h.clients, now, counter);
      hide BroadcastOne, Tally;
    }
  }

  lemma {:induction false} InterestCounts(h: State, oracle: Oracle, world: World, client: ClientId, events: seq<DomainEvent>, n: nat, now: Time, counter: Counter)
    requires n <= |events|
    ensures Counts(h, SendInterest(h, oracle, world, client, events, n, now), counter, 0)
  {
    if n > 0 {
      InterestCounts(h, oracle, world, client, events, n - 1, now, counter);
      BroadcastOneCounts(SendInterest(h, oracle, world, client, events, n - 1, now), oracle, world, events[n - 1], [client], now, counter);
      hide BroadcastOne, Tally;
    }
  }

  lemma {:induction false} ResendListCounts(h: State, oracle: Oracle, client: ClientId, due: seq<NetworkEvent>, n: nat, now: Time, counter: Counter)
    requires n <= |due|
    ensures Counts(h, ResendList(h, oracle, client, due, n, now), counter, 0)
  {
    if n > 0 {
      ResendListCounts(h, oracle, client, due, n - 1, now, counter);
      SendCounts(ResendList(h, oracle, client, due, n - 1, now), oracle, client, due[n - 1], now, true, counter);
      hide SendReliable, Tally;
    }
  }

  lemma {:induction false} ResendCounts(h: State, oracle: Oracle, config: Config, walk: seq<ClientId>, n: nat, now: Time, counter: Counter)
    requires n <= |walk|
    ensures Counts(h, Resend(h, oracle, config, walk, n, now), counter, 0)
  {
    if n > 0 {
      ResendCounts(h, oracle, config, walk, n - 1, now, counter);
      var before := Resend(h, oracle, config, walk, n - 1, now);
      var due := DueFor(before, oracle, config, walk[n - 1], now);
      ResendListCounts(before, oracle, walk[n - 1], due, |due|, now, counter);
      hide ResendList, DueFor, Tally;
    }
  }

  // --- turns ---

  lemma TryCounts(h: State, oracle: Oracle, config: Config, world: World, client: ClientId, now: Time, counter: Counter)
    ensures var planned := PlannedFor(h, config, world, client);
            var tried := TrySnapshot(h, oracle, planned, client, now);
            Counts(h, tried, counter, Weight(Attempt(client, SnapshotMessage(planned.snapshot), now, oracle.accepts(|h.log|), false), counter))
  {
    var planned := PlannedFor(h, config, world, client);
    TallySnoc(h.log, Attempt(client, SnapshotMessage(planned.snapshot), now, oracle.accepts(|h.log|), false), counter);
    hide PlannedFor, Delta.PlanOf, Tally, Weight, Lookup;
  }

  lemma RecordCounts(h: State, shifted: State, config: Config, planned: Planner.Planned, client: ClientId, now: Time, counter: Counter)
    requires client in shifted.states && planned.stats.output == |planned.snapshot.entities|
    ensures var done := MarkSent(RecordSnapshot(shifted, config, planned, DecisionFor(h, client), client), config, client, now);
            var w: int := Weight(Attempt(client, SnapshotMessage(planned.snapshot), now, true, false), counter);
            Counts(shifted, done, counter, -w)
  {
    hide Tally, Stored, DecisionFor;
  }

  lemma PlannedStats(h: State, config: Config, world: World, client: ClientId)
    ensures var planned := PlannedFor(h, config, world, client);
            && planned.stats.output == |planned.snapshot.entities|
            && planned.stats.dropped == |world.Visible(client)| - |planned.snapshot.entities|
  {
    hide Planner.Kept;
  }

  lemma MoveCounts(tried: State, oracle: Oracle, snapshot: Snapshot, client: ClientId, counter: Counter)
    requires client in tried.states
    ensures Counts(tried, MoveInterest(tried, InterestFrame(tried, oracle, snapshot, client), snapshot, client), counter, 0)
  {
    hide Tally, InterestFrame;
  }

  lemma AcceptedCounts(h: State, oracle: Oracle, config: Config, world: World, client: ClientId, now: Time, counter: Counter)
    requires client in h.states && now >= h.states[client].nextSendAt && oracle.accepts(|h.log|)
    ensures Counts(h, SnapshotTurn(h, oracle, config, world, client, now), counter, 0)
  {
    var planned := PlannedFor(h, config, world, client);
    var w: int := Weight(Attempt(client, SnapshotMessage(planned.snapshot), now, true, false), counter);
    var tried, moved, events, shifted := TurnStages(h, oracle, config, world, client, now);
    var next := SnapshotTurn(h, oracle, config, world, client, now);
    PlannedStats(h, config, world, client);
    TryCounts(h, oracle, config, world, client, now, counter);
    InterestIsReliable(moved, oracle, world, client, events, |events|, now);
    MoveFacts(tried, oracle, planned.snapshot, client);
    assert client in shifted.states;
    hide *;
    MoveCounts(tried, oracle, planned.snapshot, client, counter);
    InterestCounts(moved, oracle, world, client, events, |events|, now, counter);
    RecordCounts(h, shifted, config, planned, client, now, counter);
    CountsTransitive(h, tried, moved, counter, w, 0);
    CountsTransitive(h, moved, shifted, counter, w, 0);
    CountsTransitive(h, shifted, next, counter, w, -w);
  }

  lemma TurnCounts(h: State, oracle: Oracle, config: Config, world: World, client: ClientId, now: Time, counter: Counter)
    requires client in h.states
    ensures Counts(h, SnapshotTurn(h, oracle, config, world, client, now), counter, 0)
  {
    if now >= h.states[client].nextSendAt && oracle.accepts(|h.log|) {
      AcceptedCounts(h, oracle, config, world, client, now, counter);
    } else {
      TryCounts(h, oracle, config, world, client, now, counter);
      hide PlannedFor, TrySnapshot, Tally, DecisionFor;
    }
  }

  lemma {:induction false} SnapshotsCount(h: State, oracle: Oracle, config: Config, world: World, n: nat, now: Time, released: RD.Released, counter: Counter)
    requires n <= |h.clients| && RD.Inv(h, config, released)
    ensures Counts(h, Snapshots(h, oracle, config, world, n, now), counter, 0)
  {
    hide RD.Inv, SnapshotTurn, Tally;
    if n > 0 {
      SnapshotsCount(h, oracle, config, world, n - 1, now, released, counter);
      RD.SnapshotsKeepInv(h, config, oracle, world, n - 1, now, released);
      RD.InvWellFormed(h, config, released);
      assert h.clients[n - 1] in h.clients;
      TurnCounts(Snapshots(h, oracle, config, world, n - 1, now), oracle, config, world, h.clients[n - 1], now, counter);
    }
  }

  lemma TickCounts(h: State, config: Config, oracle: Oracle, world: World, now: Time, released: RD.Released, counter: Counter)
    requires RD.Inv(h, config, released)
    ensures Counts(h, Tick(h, oracle, config, world, now), counter, 0)
  {
    var snapshotted := AfterSnapshots(h, oracle, config, world, now);
    var told := AfterBroadcast(h, oracle, config, world, now);
    var walk := oracle.order(|told.log|, 0, told.states.Keys);
    SnapshotsCount(h, oracle, config, world, |h.clients|, now, released, counter);
    BroadcastCounts(snapshotted, oracle, world, world.events, |world.events|, now, counter);
    ResendCounts(told, oracle, config, walk, |walk|, now, counter);
    TickIsPhases(h, oracle, config, world, now);
    hide RD.Inv, Snapshots, Broadcast, Resend, Tick, Tally;
  }

  /** Messages from clients log nothing and count only acknowledgements. */
  lemma MessagesLeaveLog(h: State, client: ClientId, id: nat)
    ensures Login(h, client).log == h.log && Login(h, client).stats == h.stats
    ensures var next := SnapshotAck(h, client, id);
            next.log == h.log && next.stats == h.stats.(snapshotAcks := next.stats.snapshotAcks, staleSnapshotAcks := next.stats.staleSnapshotAcks)
    ensures var next := EventAck(h, client, id);
            next.log == h.log && next.stats == h.stats.(eventAcks := next.stats.eventAcks, staleEventAcks := next.stats.staleEventAcks)
  {
    hide Lookup;
  }

  lemma MessagesReachHost(config: Config, oracle: Oracle, s: System, action: Action)
    requires !action.HostTick?
    ensures var next := Step(config, oracle, s, action).host;
            || next == s.host
            || (action.Connect? && next == Login(s.host, action.client))
            || (action.DeliverAck? && action.ack.AckSnapshot? && next == SnapshotAck(s.host, action.ack.client, action.ack.snapshotId))
            || (action.DeliverAck? && action.ack.AckEvent? && next == EventAck(s.host, action.ack.client, action.ack.eventId))
  {
    hide Login, SnapshotAck, EventAck, RD.Release;
  }

  lemma MessagesDoNotCount(config: Config, oracle: Oracle, s: System, action: Action, counter: Counter)
    requires !action.HostTick?
    ensures Counts(s.host, Step(config, oracle, s, action).host, counter, 0)
  {
    MessagesReachHost(config, oracle, s, action);
    hide Step, Tally, Login, SnapshotAck, EventAck;
    match action {
      case Connect(client) => MessagesLeaveLog(s.host, client, 0);
      case Deliver(_, _) =>
      case DeliverAck(ack) => MessagesLeaveLog(s.host, ack.client, if ack.AckSnapshot? then ack.snapshotId else ack.eventId);
    }
  }

  lemma StepCounts(config: Config, oracle: Oracle, s: System, action: Action, counter: Counter)
    requires Protocol.Inv(config, s)
    ensures Counts(s.host, Step(config, oracle, s, action).host, counter, 0)
  {
    if action.HostTick? {
      TickCounts(s.host, config, oracle, action.world, action.now, s.released, counter);
    } else {
      MessagesDoNotCount(config, oracle, s, action, counter);
    }
    hide Tick, Tally, RD.Inv, SD.Inv, AcksOk;
  }

  /** In every reachable state the host's send counters are the tallies of its log: event
      sends and resends, snapshots, deltas and entities the transport has accepted. */
  lemma {:induction false} CountersTallyTheLog(config: Config, oracle: Oracle, actions: seq<Action>, counter: Counter)
    requires Legal(oracle, actions)
    ensures var h := Run(config, oracle, actions).host;
            Reading(h.stats, counter) == Tally(h.log, counter)
  {
    if actions != [] {
      var front, last := actions[..|actions| - 1], actions[|actions| - 1];
      CountersTallyTheLog(config, oracle, front, counter);
      RunKeepsInv(config, oracle, front);
      StepCounts(config, oracle, Run(config, oracle, front), last, counter);
      hide Step, Tally, Protocol.Inv;
    }
  }

  // --- turns, in full ---

  lemma DroppedAndMissed(h: State, shifted: State, config: Config, planned: Planner.Planned, client: ClientId, now: Time)
    requires client in shifted.states
    ensures var done := MarkSent(RecordSnapshot(shifted, config, planned, DecisionFor(h, client), client), config, client, now);
            var decision := DecisionFor(h, client);
            done.stats == shifted.stats.(
              snapshotsSent := done.stats.snapshotsSent, delta := done.stats.delta, full := done.stats.full,
              entitiesSent := done.stats.entitiesSent,
              misses := shifted.stats.misses + (if decision.requested != 0 && !decision.available then 1 else 0),
              entitiesDropped := shifted.stats.entitiesDropped + planned.stats.dropped)
  {
    hide DecisionFor, Stored;
  }

  ghost predicate DeltaCounted(s: Stats, t: Stats, plan: Delta.Plan) {
    && t.added == s.added + plan.added && t.changed == s.changed + plan.changed
    && t.removed == s.removed + plan.removed && t.same == s.same + plan.same
  }

  /** What a try counts: the placeholder delta, whether or not the transport accepts. */
  ghost predicate TryCounted(h: State, next: State, client: ClientId, snapshot: Snapshot)
    requires client in h.states
  {
    var acked := h.states[client].acked;
    && (snapshot.deliveryKind == Full ==>
          next.stats.added == h.stats.added && next.stats.changed == h.stats.changed
          && next.stats.removed == h.stats.removed && next.stats.same == h.stats.same)
    && (snapshot.deliveryKind == DeltaEligible ==>
          exists b :: b in Entries(h.cache, client) && b.snapshotId == acked
                      && DeltaCounted(h.stats, next.stats, Delta.PlanOf(snapshot, b)))
  }

  lemma TryIsCounted(h: State, oracle: Oracle, config: Config, world: World, client: ClientId, now: Time)
    requires client in h.states
    ensures var planned := PlannedFor(h, config, world, client);
            var tried := TrySnapshot(h, oracle, planned, client, now);
            && TryCounted(h, tried, client, planned.snapshot)
            && tried.stats.skipped == h.stats.skipped && tried.stats.misses == h.stats.misses
            && tried.stats.entitiesDropped == h.stats.entitiesDropped
  {
    var planned := PlannedFor(h, config, world, client);
    var snapshot := planned.snapshot;
    DueFits(h, config, world, client);
    var tried := TrySnapshot(h, oracle, planned, client, now);
    hide PlannedFor, Delta.Entries, Delta.CountKind, FirstWithId;
    if snapshot.deliveryKind == DeltaEligible {
      var b := Lookup(h.cache, client, snapshot.baselineId).value;
      assert b in Entries(h.cache, client) && b.snapshotId == h.states[client].acked;
      assert Delta.PlanOf(snapshot, b).baselineMatched;
      assert DeltaCounted(h.stats, tried.stats, Delta.PlanOf(snapshot, b));
    }
  }

  /** What a turn counts beside what it logs: a turn before its time is skipped; a try
      counts its delta; an accepted full snapshot whose client has acknowledged one is a
      miss, and what the planner cut off is dropped. */
  ghost predicate TurnCounted(h: State, next: State, world: World, client: ClientId, now: Time)
    requires client in h.states
  {
    var s, t := h.stats, next.stats;
    if now < h.states[client].nextSendAt then t == s.(skipped := s.skipped + 1)
    else
      |next.log| > |h.log| && next.log[|h.log|].message.SnapshotMessage? &&
      var a := next.log[|h.log|];
      var snapshot := a.message.snapshot;
      && t.skipped == s.skipped
      && TryCounted(h, next, client, snapshot)
      && t.misses == s.misses + (if a.accepted && h.states[client].acked != 0 && snapshot.deliveryKind == Full then 1 else 0)
      && t.entitiesDropped == s.entitiesDropped + (if a.accepted then |world.Visible(client)| - |snapshot.entities| else 0)
  }

  lemma MoveCountsNothing(tried: State, oracle: Oracle, snapshot: Snapshot, client: ClientId)
    requires client in tried.states
    ensures var moved := MoveInterest(tried, InterestFrame(tried, oracle, snapshot, client), snapshot, client);
            moved.stats == tried.stats.(enter := moved.stats.enter, stay := moved.stats.stay, exit := moved.stats.exit)
  {
    hide InterestFrame;
  }

  lemma DecidedIsPlanned(h: State, config: Config, world: World, client: ClientId)
    requires client in h.states
    ensures var decision := DecisionFor(h, client);
            (decision.requested != 0 && !decision.available)
            <==> (h.states[client].acked != 0 && PlannedFor(h, config, world, client).snapshot.deliveryKind == Full)
  {
    hide Planner.Kept;
  }

  lemma AcceptedIsCounted(h: State, oracle: Oracle, config: Config, world: World, client: ClientId, now: Time)
    requires client in h.states && now >= h.states[client].nextSendAt && oracle.accepts(|h.log|)
    ensures TurnCounted(h, SnapshotTurn(h, oracle, config, world, client, now), world, client, now)
  {
    var planned := PlannedFor(h, config, world, client);
    var tried, moved, events, shifted := TurnStages(h, oracle, config, world, client, now);
    var next := SnapshotTurn(h, oracle, config, world, client, now);
    PlannedStats(h, config, world, client);
    DecidedIsPlanned(h, config, world, client);
    TrySnapshotFacts(h, oracle, config, world, client, now);
    TryIsCounted(h, oracle, config, world, client, now);
    MoveFacts(tried, oracle, planned.snapshot, client);
    MoveCountsNothing(tried, oracle, planned.snapshot, client);
    InterestIsReliable(moved, oracle, world, client, events, |events|, now);
    RecordFacts(h, shifted, config, planned, client, now);
    DroppedAndMissed(h, shifted, config, planned, client, now);
    assert shifted.log[|h.log|] == moved.log[|h.log|];
    hide SnapshotTurn, PlannedFor, TrySnapshot, InterestFrame, MoveInterest, SendInterest, RecordSnapshot, MarkSent, DecisionFor, Newest;
  }

  /** Every turn is counted as it went. */
  lemma TurnIsCounted(h: State, oracle: Oracle, config: Config, world: World, client: ClientId, now: Time)
    requires client in h.states
    ensures TurnCounted(h, SnapshotTurn(h, oracle, config, world, client, now), world, client, now)
  {
    if now >= h.states[client].nextSendAt && oracle.accepts(|h.log|) {
      AcceptedIsCounted(h, oracle, config, world, client, now);
    } else {
      TrySnapshotFacts(h, oracle, config, world, client, now);
      TryIsCounted(h, oracle, config, world, client, now);
      hide PlannedFor, TrySnapshot, TryCounted, DecisionFor;
    }
  }
}
