/** Which events one host tick puts on the wire, told by the log of attempts and the pending
    tables alone: exactly the ready ones are resent and every new one is broadcast. */
module EventTurns {
  import opened Basics
  import opened Replication
  import opened Events
  import opened ClientReplication
  import opened Host
  import opened Protocol
  import Planner
  import RD = ReliableDelivery
  import SD = SnapshotDelivery

  // --- attempts ---

  /** All attempts to send an event to a client, oldest first. */
  function EventTries(log: seq<Attempt>, client: ClientId, id: EventId): seq<Attempt> {
    if log == [] then []
    else
      var a := log[|log| - 1];
      EventTries(log[..|log| - 1], client, id)
      + (if a.peer == client && a.message.EventMessage? && a.message.event.eventId == id then [a] else [])
  }

  lemma EventTriesSnoc(log: seq<Attempt>, a: Attempt, client: ClientId, id: EventId)
    ensures EventTries(log + [a], client, id)
         == EventTries(log, client, id)
            + (if a.peer == client && a.message.EventMessage? && a.message.event.eventId == id then [a] else [])
  {
    assert (log + [a])[..|log|] == log;
  }

  /** The attempts after are those before and exactly one more, of this event, at this time. */
  ghost predicate TriedOnce(before: seq<Attempt>, after: seq<Attempt>, client: ClientId, event: NetworkEvent, now: Time, resend: bool) {
    var t, u := EventTries(before, client, event.eventId), EventTries(after, client, event.eventId);
    && |u| == |t| + 1 && t <= u
    && u[|t|] == Attempt(client, EventMessage(event), now, u[|t|].accepted, resend)
  }

  ghost predicate NotTried(before: seq<Attempt>, after: seq<Attempt>, client: ClientId, id: EventId) {
    EventTries(after, client, id) == EventTries(before, client, id)
  }

  ghost predicate SameEntry(h: State, next: State, client: ClientId, id: EventId) {
    && (id in RD.Pending(next, client) <==> id in RD.Pending(h, client))
    && (id in RD.Pending(h, client) ==> RD.Pending(next, client)[id] == RD.Pending(h, client)[id])
  }

  /** Nothing happens to this event and this client. */
  ghost predicate Untouched(h: State, next: State, client: ClientId, id: EventId) {
    NotTried(h.log, next.log, client, id) && SameEntry(h, next, client, id)
  }

  lemma SendEntries(h: State, oracle: Oracle, client: ClientId, event: NetworkEvent, now: Time, resend: bool, c: ClientId, id: EventId)
    ensures var next := SendReliable(h, oracle, client, event, now, resend);
            && (c != client || id != event.eventId ==> SameEntry(h, next, c, id))
            && (c != client ==> RD.Pending(next, c) == RD.Pending(h, c))
            && next.log == h.log + [Attempt(client, EventMessage(event), now, oracle.accepts(|h.log|), resend)]
  {
  }

  lemma SendTries(h: State, oracle: Oracle, client: ClientId, event: NetworkEvent, now: Time, resend: bool, c: ClientId, id: EventId)
    ensures var next := SendReliable(h, oracle, client, event, now, resend);
            && (c == client && id == event.eventId ==> TriedOnce(h.log, next.log, c, event, now, resend))
            && (c != client || id != event.eventId ==> Untouched(h, next, c, id))
            && (c != client ==> RD.Pending(next, c) == RD.Pending(h, c))
  {
    SendEntries(h, oracle, client, event, now, resend, c, id);
    EventTriesSnoc(h.log, Attempt(client, EventMessage(event), now, oracle.accepts(|h.log|), resend), c, id);
    hide EventTries, SendReliable, SameEntry, RD.Pending;
  }

  // --- resends ---

  /** How long to wait after the n-th copy, in base intervals. */
  function Factor(n: nat): nat {
    if n <= 1 then 1 else if n == 2 then 2 else if n == 3 then 4 else if n == 4 then 8 else 16
  }

  /** Under the cap, and the wait after the last copy is over. */
  ghost predicate Ready(p: PendingEvent, config: Config, now: Time) {
    && (config.maxSendCount == 0 || p.sendCount < config.maxSendCount)
    && now >= p.lastSentAt + config.resendBase * Factor(p.sendCount)
  }

  lemma ReadyIsDue(p: PendingEvent, config: Config, now: Time)
    ensures Ready(p, config, now) <==> IsDue(p, now, config.resendBase, config.maxSendCount)
  {
    Pow2Values();
    assert Doublings(p.sendCount) == Factor(p.sendCount);
  }

  /** Exactly one resend of an event that is pending and ready, none of any other. */
  ghost predicate Resent(h: State, next: State, config: Config, client: ClientId, id: EventId, now: Time) {
    var pending := RD.Pending(h, client);
    if id in pending && Ready(pending[id], config, now)
    then pending[id].event.eventId == id && TriedOnce(h.log, next.log, client, pending[id].event, now, true)
    else NotTried(h.log, next.log, client, id)
  }

  /** Where an event stands on a due list; -1 if it is not on it. */
  ghost predicate StandsAt(due: seq<NetworkEvent>, id: EventId, k: int) {
    if 0 <= k < |due| then due[k].eventId == id
    else k == -1 && forall j :: 0 <= j < |due| ==> due[j].eventId != id
  }

  lemma {:induction false} ResendListTries(h: State, oracle: Oracle, client: ClientId, due: seq<NetworkEvent>, n: nat, now: Time, c: ClientId, id: EventId, k: int)
    requires n <= |due| && DistinctEvents(due) && StandsAt(due, id, k)
    ensures var next := ResendList(h, oracle, client, due, n, now);
            && (c == client && 0 <= k < n ==> TriedOnce(h.log, next.log, c, due[k], now, true))
            && (c != client || k < 0 || k >= n ==> NotTried(h.log, next.log, c, id))
            && (c != client ==> RD.Pending(next, c) == RD.Pending(h, c))
  {
    if n > 0 {
      ResendListTries(h, oracle, client, due, n - 1, now, c, id, k);
      SendTries(ResendList(h, oracle, client, due, n - 1, now), oracle, client, due[n - 1], now, true, c, id);
      hide SendReliable, EventTries, RD.Pending;
    }
  }

  /** The due list of a client holds an event if and only if it is pending and ready. */
  lemma DueForIsReady(h: State, config: Config, oracle: Oracle, client: ClientId, now: Time, released: RD.Released, id: EventId)
    returns (k: int)
    requires RD.Inv(h, config, released) && client in h.states && ValidOrder(oracle.order)
    ensures var due := DueFor(h, oracle, config, client, now);
            var pending := RD.Pending(h, client);
            && DistinctEvents(due) && StandsAt(due, id, k)
            && (k >= 0 <==> id in pending && Ready(pending[id], config, now))
            && (k >= 0 ==> due[k] == pending[id].event)
  {
    var pending := h.states[client].pending;
    var walk := oracle.order(|h.log|, client, pending.Keys);
    assert Enumerates(walk, pending.Keys);
    forall e | e in pending
      ensures pending[e].event.eventId == e
    {
      RD.PendingIsSendable(h, config, released, client, e, now);
    }
    assert forall e :: e in walk ==> e in pending;
    DueEventsAreDue(pending, walk, now, config.resendBase, config.maxSendCount);
    var due := DueEvents(pending, walk, now, config.resendBase, config.maxSendCount);
    hide DueEvents, RD.Inv, IsDue;
    assert due == DueFor(h, oracle, config, client, now);
    if id in pending {
      ReadyIsDue(pending[id], config, now);
    }
    hide Ready;
    if id in pending && IsDue(pending[id], now, config.resendBase, config.maxSendCount) {
      assert id in walk && pending[id].event in due;
      k :| 0 <= k < |due| && due[k] == pending[id].event;
    } else {
      k := -1;
    }
  }

  lemma ResendClientTries(h: State, config: Config, oracle: Oracle, client: ClientId, now: Time, released: RD.Released, c: ClientId, id: EventId)
    requires RD.Inv(h, config, released) && client in h.states && ValidOrder(oracle.order)
    ensures var next := ResendClient(h, oracle, config, client, now);
            && (c == client ==> Resent(h, next, config, c, id, now))
            && (c != client ==> NotTried(h.log, next.log, c, id) && RD.Pending(next, c) == RD.Pending(h, c))
  {
    var k := DueForIsReady(h, config, oracle, client, now, released, id);
    var due := DueFor(h, oracle, config, client, now);
    ResendListTries(h, oracle, client, due, |due|, now, c, id, k);
    hide RD.Inv, DueFor, ResendList, DistinctEvents, Ready, TriedOnce, NotTried;
  }

  lemma WalkStep(walk: seq<ClientId>, n: nat, c: ClientId)
    requires 0 < n <= |walk| && Distinct(walk)
    ensures c in walk[..n] <==> c in walk[..n - 1] || c == walk[n - 1]
    ensures walk[n - 1] !in walk[..n - 1]
  {
    assert walk[..n] == walk[..n - 1] + [walk[n - 1]];
  }

  ghost predicate ResentSoFar(h: State, next: State, config: Config, c: ClientId, id: EventId, now: Time, done: bool) {
    && (done ==> Resent(h, next, config, c, id, now))
    && (!done ==> NotTried(h.log, next.log, c, id) && RD.Pending(next, c) == RD.Pending(h, c))
  }

  lemma ResendStep(h: State, before: State, next: State, config: Config, c: ClientId, id: EventId, now: Time, done: bool, turn: bool)
    requires ResentSoFar(h, before, config, c, id, now, done) && !(done && turn)
    requires turn ==> Resent(before, next, config, c, id, now)
    requires !turn ==> NotTried(before.log, next.log, c, id) && RD.Pending(next, c) == RD.Pending(before, c)
    ensures ResentSoFar(h, next, config, c, id, now, done || turn)
  {
    hide Ready, EventTries, RD.Pending;
  }

  lemma {:induction false} ResendTries(h: State, config: Config, oracle: Oracle, walk: seq<ClientId>, n: nat, now: Time, released: RD.Released, c: ClientId, id: EventId)
    requires RD.Inv(h, config, released) && n <= |walk| && ValidOrder(oracle.order) && Distinct(walk)
    requires forall w :: w in walk ==> w in h.states
    ensures ResentSoFar(h, Resend(h, oracle, config, walk, n, now), config, c, id, now, c in walk[..n])
  {
    hide RD.Inv, ResendClient, EventTries;
    if n > 0 {
      ResendTries(h, config, oracle, walk, n - 1, now, released, c, id);
      RD.ResendKeepsInv(h, config, oracle, walk, n - 1, now, released);
      var before := Resend(h, oracle, config, walk, n - 1, now);
      assert walk[n - 1] in walk;
      ResendClientTries(before, config, oracle, walk[n - 1], now, released, c, id);
      WalkStep(walk, n, c);
      hide Resent, ResentSoFar, NotTried, RD.Pending;
      ResendStep(h, before, ResendClient(before, oracle, config, walk[n - 1], now), config, c, id, now, c in walk[..n - 1], c == walk[n - 1]);
    }
  }

  /** The resend phase, from any state the host's invariant allows: of every client's
      pending events exactly the ready ones are tried again, each exactly once. */
  lemma PhaseResends(h: State, config: Config, oracle: Oracle, now: Time, released: RD.Released, c: ClientId, id: EventId)
    requires RD.Inv(h, config, released) && ValidOrder(oracle.order)
    ensures var walk := oracle.order(|h.log|, 0, h.states.Keys);
            Resent(h, Resend(h, oracle, config, walk, |walk|, now), config, c, id, now)
  {
    var walk := oracle.order(|h.log|, 0, h.states.Keys);
    assert Enumerates(walk, h.states.Keys);
    ResendTries(h, config, oracle, walk, |walk|, now, released, c, id);
    assert walk[..|walk|] == walk;
    hide RD.Inv, Resend, Ready, TriedOnce, NotTried;
  }

  // --- first sends ---

  /** The network form of a domain event under a given number. */
  ghost predicate Carries(e: NetworkEvent, id: EventId, world: World, event: DomainEvent) {
    e.eventId == id && e.serverTick == world.tick && e.serverTime == world.time && ToDomainEvent(e) == event
  }

  /** Movement and the two client-side events stay on the server. */
  ghost predicate GoesOut(event: DomainEvent) {
    !event.PlayerMoved? && !event.SnapshotApplied? && !event.PredictionCorrected?
  }

  ghost predicate MeantFor(event: DomainEvent, client: ClientId) {
    (event.EnteredInterest? || event.LeftInterest?) ==> event.observer == client
  }

  /** One more attempt, a first send that carries this event. */
  ghost predicate ToldOnce(before: seq<Attempt>, after: seq<Attempt>, c: ClientId, id: EventId, world: World, event: DomainEvent, now: Time) {
    var t, u := EventTries(before, c, id), EventTries(after, c, id);
    && |u| == |t| + 1 && t <= u
    && u[|t|].message.EventMessage? && Carries(u[|t|].message.event, id, world, event)
    && u[|t|] == Attempt(c, u[|t|].message, now, u[|t|].accepted, false)
  }

  ghost predicate Told(before: seq<Attempt>, after: seq<Attempt>, listed: bool, c: ClientId, id: EventId, world: World, event: DomainEvent, now: Time) {
    if listed && GoesOut(event) && MeantFor(event, c)
    then ToldOnce(before, after, c, id, world, event, now)
    else NotTried(before, after, c, id)
  }

  lemma {:induction false} SendToClientsTries(h: State, oracle: Oracle, clients: seq<ClientId>, n: nat, event: NetworkEvent, now: Time, c: ClientId, id: EventId)
    requires n <= |clients| && Distinct(clients)
    ensures var next := SendToClients(h, oracle, clients, n, event, now);
            var meant := ObserverOnly(event.payload).None? || ObserverOnly(event.payload).value == c;
            && next.nextEventId == h.nextEventId
            && (id != event.eventId ==> Untouched(h, next, c, id))
            && (c in clients[..n] && meant ==> TriedOnce(h.log, next.log, c, event, now, false))
            && (!(c in clients[..n] && meant) ==> NotTried(h.log, next.log, c, event.eventId))
  {
    hide EventTries, ObserverOnly, RD.Pending;
    if n > 0 {
      SendToClientsTries(h, oracle, clients, n - 1, event, now, c, id);
      var before := SendToClients(h, oracle, clients, n - 1, event, now);
      WalkStep(clients, n, c);
      SendTries(before, oracle, clients[n - 1], event, now, false, c, id);
      SendTries(before, oracle, clients[n - 1], event, now, false, c, event.eventId);
    }
  }

  lemma FormFacts(id: EventId, world: World, event: DomainEvent, c: ClientId)
    ensures var form := ToNetworkEvent(id, world.tick, world.time, event);
            && (form.Some? <==> GoesOut(event))
            && (form.Some? ==>
                  && Carries(form.value, id, world, event)
                  && (ObserverOnly(form.value.payload).None? || ObserverOnly(form.value.payload).value == c <==> MeantFor(event, c)))
  {
  }

  lemma OnceIsTold(before: seq<Attempt>, after: seq<Attempt>, c: ClientId, e: NetworkEvent, world: World, event: DomainEvent, now: Time)
    requires Carries(e, e.eventId, world, event) && TriedOnce(before, after, c, e, now, false)
    ensures ToldOnce(before, after, c, e.eventId, world, event, now)
  {
    hide EventTries, ToDomainEvent;
  }

  lemma BroadcastOneTries(h: State, oracle: Oracle, world: World, event: DomainEvent, clients: seq<ClientId>, now: Time, c: ClientId, id: EventId)
    requires Distinct(clients)
    ensures var next := BroadcastOne(h, oracle, world, event, clients, now);
            && next.nextEventId == h.nextEventId + 1
            && (id != h.nextEventId ==> Untouched(h, next, c, id))
            && (id == h.nextEventId ==> Told(h.log, next.log, c in clients, c, id, world, event, now))
  {
    var numbered := h.(nextEventId := h.nextEventId + 1);
    FormFacts(h.nextEventId, world, event, c);
    var form := ToNetworkEvent(h.nextEventId, world.tick, world.time, event);
    assert Untouched(h, numbered, c, id);
    hide ToNetworkEvent, GoesOut, MeantFor, EventTries, RD.Pending, ObserverOnly;
    if form.Some? {
      var e := form.value;
      SendToClientsTries(numbered, oracle, clients, |clients|, e, now, c, id);
      assert clients[..|clients|] == clients;
      var next := SendToClients(numbered, oracle, clients, |clients|, e, now);
      assert Untouched(numbered, next, c, id) ==> Untouched(h, next, c, id);
      assert e.eventId == h.nextEventId;
      hide SendToClients, SameEntry, NotTried, TriedOnce, Carries, ToldOnce, Untouched;
      if c in clients && MeantFor(event, c) {
        OnceIsTold(h.log, next.log, c, e, world, event, now);
      }
    }
  }

  ghost predicate BroadcastLaw(h: State, next: State, world: World, events: seq<DomainEvent>, n: nat, c: ClientId, id: EventId, now: Time)
    requires n <= |events|
  {
    && next.nextEventId == h.nextEventId + n && next.clients == h.clients
    && (if h.nextEventId <= id < h.nextEventId + n
        then Told(h.log, next.log, c in h.clients, c, id, world, events[id - h.nextEventId], now)
        else Untouched(h, next, c, id))
  }

  lemma BroadcastStep(h: State, before: State, next: State, world: World, events: seq<DomainEvent>, n: nat, c: ClientId, id: EventId, now: Time)
    requires 0 < n <= |events| && BroadcastLaw(h, before, world, events, n - 1, c, id, now)
    requires next.nextEventId == before.nextEventId + 1 && next.clients == before.clients
    requires id != before.nextEventId ==> Untouched(before, next, c, id)
    requires id == before.nextEventId ==> Told(before.log, next.log, c in h.clients, c, id, world, events[n - 1], now)
    ensures BroadcastLaw(h, next, world, events, n, c, id, now)
  {
    hide EventTries, RD.Pending, Carries, GoesOut, MeantFor;
  }

  /** The broadcast phase: the k-th event takes the k-th number; if it has a network form
      it is tried exactly once towards every client it is meant for, and nobody else. */
  lemma {:induction false} PhaseBroadcasts(h: State, oracle: Oracle, world: World, events: seq<DomainEvent>, n: nat, now: Time, c: ClientId, id: EventId)
    requires n <= |events| && Distinct(h.clients)
    ensures BroadcastLaw(h, Broadcast(h, oracle, world, events, n, now), world, events, n, c, id, now)
  {
    if n > 0 {
      PhaseBroadcasts(h, oracle, world, events, n - 1, now, c, id);
      var before := Broadcast(h, oracle, world, events, n - 1, now);
      BroadcastOneTries(before, oracle, world, events[n - 1], h.clients, now, c, id);
      SD.BroadcastOneIsReliable(before, oracle, world, events[n - 1], h.clients, now);
      hide BroadcastOne, Untouched, Told;
      assert before.clients == h.clients;
      BroadcastStep(h, before, BroadcastOne(before, oracle, world, events[n - 1], h.clients, now), world, events, n, c, id, now);
    } else {
      hide EventTries;
    }
  }

  // --- snapshot turns and old events ---

  /** Numbers rise and nothing happens to an event numbered before. */
  ghost predicate LeavesOld(h: State, next: State, c: ClientId, id: EventId) {
    h.nextEventId <= next.nextEventId && (id < h.nextEventId ==> Untouched(h, next, c, id))
  }

  lemma LeavesOldTransitive(h: State, before: State, next: State, c: ClientId, id: EventId)
    requires LeavesOld(h, before, c, id) && LeavesOld(before, next, c, id)
    ensures LeavesOld(h, next, c, id)
  {
    hide EventTries, RD.Pending;
  }

  lemma {:induction false} InterestLeavesOld(h: State, oracle: Oracle, world: World, client: ClientId, events: seq<DomainEvent>, n: nat, now: Time, c: ClientId, id: EventId)
    requires n <= |events|
    ensures LeavesOld(h, SendInterest(h, oracle, world, client, events, n, now), c, id)
  {
    if n > 0 {
      InterestLeavesOld(h, oracle, world, client, events, n - 1, now, c, id);
      var before := SendInterest(h, oracle, world, client, events, n - 1, now);
      BroadcastOneTries(before, oracle, world, events[n - 1], [client], now, c, id);
      hide Untouched, BroadcastOne;
      LeavesOldTransitive(h, before, BroadcastOne(before, oracle, world, events[n - 1], [client], now), c, id);
    } else {
      hide EventTries;
    }
  }

  /** A step that logs at most a snapshot and keeps every table. */
  lemma QuietLeavesOld(h: State, next: State, c: ClientId, id: EventId)
    requires next.nextEventId == h.nextEventId && RD.Pending(next, c) == RD.Pending(h, c)
    requires next.log == h.log || exists a: Attempt :: a.message.SnapshotMessage? && next.log == h.log + [a]
    ensures LeavesOld(h, next, c, id)
  {
    if next.log != h.log {
      var a: Attempt :| a.message.SnapshotMessage? && next.log == h.log + [a];
      EventTriesSnoc(h.log, a, c, id);
    }
    hide EventTries, RD.Pending;
  }

  /** The states a turn passes through when the transport takes its snapshot. */
  lemma TurnStages(h: State, oracle: Oracle, config: Config, world: World, client: ClientId, now: Time)
    returns (tried: State, moved: State, events: seq<DomainEvent>, shifted: State)
    requires client in h.states && now >= h.states[client].nextSendAt && oracle.accepts(|h.log|)
    ensures tried == TrySnapshot(h, oracle, PlannedFor(h, config, world, client), client, now) && tried.states == h.states
    ensures var planned := PlannedFor(h, config, world, client);
            var frame := InterestFrame(tried, oracle, planned.snapshot, client);
            && moved == MoveInterest(tried, frame, planned.snapshot, client)
            && shifted == SendInterest(moved, oracle, world, client, events, |events|, now)
            && SnapshotTurn(h, oracle, config, world, client, now)
               == MarkSent(RecordSnapshot(shifted, config, planned, DecisionFor(h, client), client), config, client, now)
  {
    var planned := PlannedFor(h, config, world, client);
    tried := TrySnapshot(h, oracle, planned, client, now);
    var frame := InterestFrame(tried, oracle, planned.snapshot, client);
    moved := MoveInterest(tried, frame, planned.snapshot, client);
    events := InterestEvents(frame, client);
    shifted := SendInterest(moved, oracle, world, client, events, |events|, now);
    hide PlannedFor, InterestFrame, InterestEvents, SendInterest, MoveInterest, RecordSnapshot, MarkSent, DecisionFor;
  }

  lemma TrySnapshotFacts(h: State, oracle: Oracle, config: Config, world: World, client: ClientId, now: Time)
    ensures var planned := PlannedFor(h, config, world, client);
            var tried := TrySnapshot(h, oracle, planned, client, now);
            && tried.log == h.log + [Attempt(client, SnapshotMessage(planned.snapshot), now, oracle.accepts(|h.log|), false)]
            && tried.nextEventId == h.nextEventId && tried.states == h.states && tried.cache == h.cache && tried.clients == h.clients
  {
    hide PlannedFor;
  }

  lemma MoveIsQuiet(tried: State, oracle: Oracle, snapshot: Snapshot, client: ClientId, c: ClientId, id: EventId)
    requires client in tried.states
    ensures LeavesOld(tried, MoveInterest(tried, InterestFrame(tried, oracle, snapshot, client), snapshot, client), c, id)
  {
    hide InterestFrame;
    QuietLeavesOld(tried, MoveInterest(tried, InterestFrame(tried, oracle, snapshot, client), snapshot, client), c, id);
  }

  lemma RecordIsQuiet(h: State, shifted: State, config: Config, planned: Planner.Planned, client: ClientId, now: Time, c: ClientId, id: EventId)
    ensures LeavesOld(shifted, MarkSent(RecordSnapshot(shifted, config, planned, DecisionFor(h, client), client), config, client, now), c, id)
  {
    hide DecisionFor;
    QuietLeavesOld(shifted, MarkSent(RecordSnapshot(shifted, config, planned, DecisionFor(h, client), client), config, client, now), c, id);
  }

  lemma TryIsQuiet(h: State, oracle: Oracle, config: Config, world: World, client: ClientId, now: Time, c: ClientId, id: EventId)
    ensures LeavesOld(h, TrySnapshot(h, oracle, PlannedFor(h, config, world, client), client, now), c, id)
  {
    TrySnapshotFacts(h, oracle, config, world, client, now);
    hide PlannedFor, TrySnapshot;
    QuietLeavesOld(h, TrySnapshot(h, oracle, PlannedFor(h, config, world, client), client, now), c, id);
  }

  lemma TurnLeavesOld(h: State, oracle: Oracle, config: Config, world: World, client: ClientId, now: Time, c: ClientId, id: EventId)
    requires client in h.states
    ensures LeavesOld(h, SnapshotTurn(h, oracle, config, world, client, now), c, id)
  {
    var next := SnapshotTurn(h, oracle, config, world, client, now);
    var planned := PlannedFor(h, config, world, client);
    TryIsQuiet(h, oracle, config, world, client, now, c, id);
    if now < h.states[client].nextSendAt {
      hide PlannedFor, TrySnapshot, LeavesOld;
      QuietLeavesOld(h, next, c, id);
    } else if oracle.accepts(|h.log|) {
      var tried, moved, events, shifted := TurnStages(h, oracle, config, world, client, now);
      hide *;
      MoveIsQuiet(tried, oracle, planned.snapshot, client, c, id);
      InterestLeavesOld(moved, oracle, world, client, events, |events|, now, c, id);
      RecordIsQuiet(h, shifted, config, planned, client, now, c, id);
      LeavesOldTransitive(h, tried, moved, c, id);
      LeavesOldTransitive(h, moved, shifted, c, id);
      LeavesOldTransitive(h, shifted, next, c, id);
    } else {
      hide PlannedFor, TrySnapshot, LeavesOld;
    }
  }

  lemma {:induction false} SnapshotsLeaveOld(h: State, oracle: Oracle, config: Config, world: World, n: nat, now: Time, released: RD.Released, c: ClientId, id: EventId)
    requires n <= |h.clients| && RD.Inv(h, config, released)
    ensures LeavesOld(h, Snapshots(h, oracle, config, world, n, now), c, id)
  {
    hide RD.Inv, SnapshotTurn;
    if n > 0 {
      SnapshotsLeaveOld(h, oracle, config, world, n - 1, now, released, c, id);
      RD.SnapshotsKeepInv(h, config, oracle, world, n - 1, now, released);
      RD.InvWellFormed(h, config, released);
      assert h.clients[n - 1] in h.clients;
      var before := Snapshots(h, oracle, config, world, n - 1, now);
      TurnLeavesOld(before, oracle, config, world, h.clients[n - 1], now, c, id);
      hide LeavesOld;
      LeavesOldTransitive(h, before, SnapshotTurn(before, oracle, config, world, h.clients[n - 1], now), c, id);
    } else {
      hide EventTries, RD.Pending;
    }
  }

  // --- whole ticks ---

  /** The three phases of a tick. */
  function AfterSnapshots(h: State, oracle: Oracle, config: Config, world: World, now: Time): State {
    Snapshots(h, oracle, config, world, |h.clients|, now)
  }

  function AfterBroadcast(h: State, oracle: Oracle, config: Config, world: World, now: Time): State {
    Broadcast(AfterSnapshots(h, oracle, config, world, now), oracle, world, world.events, |world.events|, now)
  }

  lemma PhasesKeepInv(h: State, config: Config, oracle: Oracle, world: World, now: Time, released: RD.Released)
    requires RD.Inv(h, config, released) && ValidOrder(oracle.order)
    ensures RD.Inv(AfterSnapshots(h, oracle, config, world, now), config, released)
    ensures RD.Inv(AfterBroadcast(h, oracle, config, world, now), config, released)
    ensures AfterSnapshots(h, oracle, config, world, now).clients == h.clients
    ensures Distinct(h.clients)
  {
    RD.InvWellFormed(h, config, released);
    hide RD.Inv;
    RD.SnapshotsKeepInv(h, config, oracle, world, |h.clients|, now, released);
    RD.BroadcastKeepsInv(AfterSnapshots(h, oracle, config, world, now), config, oracle, world, world.events, |world.events|, now, released);
  }

  /** The resend phase of a tick starts where its broadcast phase ends. */
  lemma TickIsPhases(h: State, oracle: Oracle, config: Config, world: World, now: Time)
    ensures var told := AfterBroadcast(h, oracle, config, world, now);
            var walk := oracle.order(|told.log|, 0, told.states.Keys);
            Tick(h, oracle, config, world, now) == Resend(told, oracle, config, walk, |walk|, now)
  {
    hide Snapshots, Broadcast, Resend;
  }

  lemma ResentLater(h: State, told: State, next: State, config: Config, c: ClientId, id: EventId, now: Time)
    requires Untouched(h, told, c, id) && Resent(told, next, config, c, id, now)
    ensures Resent(h, next, config, c, id, now)
  {
    hide EventTries, RD.Pending, Ready;
  }

  /** A whole tick resends, of the events numbered before it, exactly those that were
      pending and ready when it began: one attempt for each, none for any other. */
  lemma TickResends(h: State, config: Config, oracle: Oracle, world: World, now: Time, released: RD.Released, c: ClientId, id: EventId)
    requires RD.Inv(h, config, released) && ValidOrder(oracle.order) && id < h.nextEventId
    ensures Resent(h, Tick(h, oracle, config, world, now), config, c, id, now)
  {
    var snapshotted := AfterSnapshots(h, oracle, config, world, now);
    var told := AfterBroadcast(h, oracle, config, world, now);
    PhasesKeepInv(h, config, oracle, world, now, released);
    SnapshotsLeaveOld(h, oracle, config, world, |h.clients|, now, released, c, id);
    PhaseBroadcasts(snapshotted, oracle, world, world.events, |world.events|, now, c, id);
    PhaseResends(told, config, oracle, now, released, c, id);
    TickIsPhases(h, oracle, config, world, now);
    hide RD.Inv, Snapshots, Broadcast, Tick, Untouched, Resent;
    LeavesOldTransitive(h, snapshotted, told, c, id);
    ResentLater(h, told, Tick(h, oracle, config, world, now), config, c, id, now);
  }

  /** In every tick of every run: from the pending tables as the resend phase finds them,
      and of the events pending before the tick, exactly the ready ones are tried again,
      each exactly once, and no other. */
  lemma ReadyEventsAreResent(config: Config, oracle: Oracle, actions: seq<Action>, world: World, now: Time, c: ClientId, id: EventId)
    requires Legal(oracle, actions)
    ensures var h := Run(config, oracle, actions).host;
            var next := Tick(h, oracle, config, world, now);
            && Resent(AfterBroadcast(h, oracle, config, world, now), next, config, c, id, now)
            && (id in RD.Pending(h, c) || id < h.nextEventId ==> Resent(h, next, config, c, id, now))
  {
    RunKeepsInv(config, oracle, actions);
    var s := Run(config, oracle, actions);
    if id in RD.Pending(s.host, c) {
      PendingIsNumbered(s.host, config, s.released, c, id);
    }
    hide Run, RD.Inv, SD.Inv, AcksOk, RD.Pending;
    if id < s.host.nextEventId {
      TickResends(s.host, config, oracle, world, now, s.released, c, id);
    }
    TableIsResent(s.host, config, oracle, world, now, s.released, c, id);
    hide Resent, Tick, AfterBroadcast;
  }

  lemma PendingIsNumbered(h: State, config: Config, released: RD.Released, c: ClientId, id: EventId)
    requires RD.Inv(h, config, released) && id in RD.Pending(h, c)
    ensures id < h.nextEventId
  {
    assert RD.EntryOk(h.log, c, id, RD.Pending(h, c)[id]);
  }

  lemma {:induction false} UnnumberedIsUntried(log: seq<Attempt>, below: EventId, c: ClientId, id: EventId)
    requires forall i :: 0 <= i < |log| && log[i].message.EventMessage? ==> log[i].message.event.eventId < below
    requires id >= below
    ensures EventTries(log, c, id) == []
  {
    if log != [] {
      UnnumberedIsUntried(log[..|log| - 1], below, c, id);
    }
  }

  /** An entry that is in the table after its only try is the one try's. */
  lemma OneTryOneCopy(h: State, config: Config, released: RD.Released, c: ClientId, id: EventId, now: Time)
    requires RD.Inv(h, config, released) && config.resendBase > 0
    requires |EventTries(h.log, c, id)| == 1 && EventTries(h.log, c, id)[0].at == now
    ensures id in RD.Pending(h, c) ==> !Ready(RD.Pending(h, c)[id], config, now)
  {
    if id in RD.Pending(h, c) {
      var p := RD.Pending(h, c)[id];
      assert RD.EntryOk(h.log, c, id, p);
      CopiesAreTries(h.log, c, id);
      assert p.lastSentAt in RD.Copies(h.log, c, id);
      var a :| a in EventTries(h.log, c, id) && a.at == p.lastSentAt;
      assert a == EventTries(h.log, c, id)[0];
      assert p.sendCount == 1 && config.resendBase * Factor(1) == config.resendBase;
    }
  }

  lemma {:induction false} CopiesAreTries(log: seq<Attempt>, c: ClientId, id: EventId)
    ensures |RD.Copies(log, c, id)| <= |EventTries(log, c, id)|
    ensures forall t :: t in RD.Copies(log, c, id) ==> exists a :: a in EventTries(log, c, id) && a.at == t
  {
    if log != [] {
      CopiesAreTries(log[..|log| - 1], c, id);
    }
  }

  /** The first try of an event: these attempts, the oldest of which is the broadcast. */
  ghost predicate FirstTold(tries: seq<Attempt>, c: ClientId, id: EventId, world: World, event: DomainEvent, now: Time) {
    && tries != []
    && tries[0].message.EventMessage? && Carries(tries[0].message.event, id, world, event)
    && tries[0] == Attempt(c, tries[0].message, now, tries[0].accepted, false)
  }

  lemma ToldIsFirst(snapshotted: State, told: State, next: State, config: Config, released: RD.Released, world: World, event: DomainEvent, c: ClientId, id: EventId, now: Time)
    requires EventTries(snapshotted.log, c, id) == [] && ToldOnce(snapshotted.log, told.log, c, id, world, event, now)
    requires RD.Inv(told, config, released) && Resent(told, next, config, c, id, now)
    ensures FirstTold(EventTries(next.log, c, id), c, id, world, event, now)
    ensures config.resendBase > 0 ==> |EventTries(next.log, c, id)| == 1
  {
    if config.resendBase > 0 {
      OneTryOneCopy(told, config, released, c, id, now);
    }
    hide RD.Inv, EventTries, Ready, Carries;
  }

  lemma SnapshotsNumber(h: State, config: Config, oracle: Oracle, world: World, now: Time, released: RD.Released)
    requires RD.Inv(h, config, released)
    ensures h.nextEventId <= AfterSnapshots(h, oracle, config, world, now).nextEventId
  {
    SnapshotsLeaveOld(h, oracle, config, world, |h.clients|, now, released, 0, 0);
    hide RD.Inv, Snapshots, Untouched;
  }

  lemma BroadcastTells(h: State, config: Config, oracle: Oracle, world: World, now: Time, released: RD.Released, k: nat, c: ClientId)
    requires RD.Inv(h, config, released) && ValidOrder(oracle.order) && k < |world.events|
    ensures var snapshotted := AfterSnapshots(h, oracle, config, world, now);
            Told(snapshotted.log, AfterBroadcast(h, oracle, config, world, now).log, c in h.clients, c, snapshotted.nextEventId + k,
                 world, world.events[k], now)
  {
    var snapshotted := AfterSnapshots(h, oracle, config, world, now);
    PhasesKeepInv(h, config, oracle, world, now, released);
    hide RD.Inv, AfterSnapshots, Told, Untouched;
    PhaseBroadcasts(snapshotted, oracle, world, world.events, |world.events|, now, c, snapshotted.nextEventId + k);
    hide Broadcast;
  }

  lemma TableIsResent(h: State, config: Config, oracle: Oracle, world: World, now: Time, released: RD.Released, c: ClientId, id: EventId)
    requires RD.Inv(h, config, released) && ValidOrder(oracle.order)
    ensures Resent(AfterBroadcast(h, oracle, config, world, now), Tick(h, oracle, config, world, now), config, c, id, now)
  {
    hide *;
    PhasesKeepInv(h, config, oracle, world, now, released);
    PhaseResends(AfterBroadcast(h, oracle, config, world, now), config, oracle, now, released, c, id);
    TickIsPhases(h, oracle, config, world, now);
  }

  /** Around the k-th broadcast of a tick: untried before, told then, resent if ready. */
  lemma AroundBroadcast(h: State, config: Config, oracle: Oracle, world: World, now: Time, released: RD.Released, k: nat, c: ClientId)
    requires RD.Inv(h, config, released) && ValidOrder(oracle.order) && k < |world.events|
    ensures var snapshotted := AfterSnapshots(h, oracle, config, world, now);
            var told := AfterBroadcast(h, oracle, config, world, now);
            var id := snapshotted.nextEventId + k;
            && h.nextEventId <= id && EventTries(h.log, c, id) == [] && EventTries(snapshotted.log, c, id) == []
            && Told(snapshotted.log, told.log, c in h.clients, c, id, world, world.events[k], now)
            && RD.Inv(told, config, released)
            && Resent(told, Tick(h, oracle, config, world, now), config, c, id, now)
  {
    hide *;
    var snapshotted := AfterSnapshots(h, oracle, config, world, now);
    PhasesKeepInv(h, config, oracle, world, now, released);
    SnapshotsNumber(h, config, oracle, world, now, released);
    FreshIsUntried(h, config, released, c, snapshotted.nextEventId + k);
    FreshIsUntried(snapshotted, config, released, c, snapshotted.nextEventId + k);
    BroadcastTells(h, config, oracle, world, now, released, k, c);
    TableIsResent(h, config, oracle, world, now, released, c, snapshotted.nextEventId + k);
  }

  lemma FreshIsUntried(h: State, config: Config, released: RD.Released, c: ClientId, id: EventId)
    requires RD.Inv(h, config, released)
    ensures id >= h.nextEventId ==> EventTries(h.log, c, id) == []
  {
    RD.InvParts(h, config, released);
    hide RD.Inv, EventTries;
    if id >= h.nextEventId {
      UnnumberedIsUntried(h.log, h.nextEventId, c, id);
    }
  }

  lemma UntriedIsNotPending(h: State, config: Config, released: RD.Released, c: ClientId, id: EventId)
    requires RD.Inv(h, config, released) && EventTries(h.log, c, id) == []
    ensures id !in RD.Pending(h, c)
  {
    CopiesAreTries(h.log, c, id);
    assert id in RD.Pending(h, c) ==> RD.EntryOk(h.log, c, id, RD.Pending(h, c)[id]);
  }

  /** All tries of a new event of a tick: none if it is not for this client; otherwise the
      broadcast, and with a positive base interval nothing else. */
  ghost predicate BroadcastTries(tries: seq<Attempt>, config: Config, listed: bool, c: ClientId, id: EventId, world: World, event: DomainEvent, now: Time) {
    if listed && GoesOut(event) && MeantFor(event, c)
    then FirstTold(tries, c, id, world, event, now) && (config.resendBase > 0 ==> |tries| == 1)
    else tries == []
  }

  lemma ToldInTheEnd(snapshotted: State, told: State, next: State, config: Config, released: RD.Released, listed: bool, world: World, event: DomainEvent, c: ClientId, id: EventId, now: Time)
    requires EventTries(snapshotted.log, c, id) == [] && Told(snapshotted.log, told.log, listed, c, id, world, event, now)
    requires RD.Inv(told, config, released) && Resent(told, next, config, c, id, now)
    ensures BroadcastTries(EventTries(next.log, c, id), config, listed, c, id, world, event, now)
  {
    hide RD.Inv, EventTries, ToldOnce, GoesOut, MeantFor, FirstTold, Ready;
    if listed && GoesOut(event) && MeantFor(event, c) {
      ToldIsFirst(snapshotted, told, next, config, released, world, event, c, id, now);
    } else {
      UntriedIsNotPending(told, config, released, c, id);
    }
  }

  /** In every tick the k-th event of the simulation gets a number of its own, and if it
      has a network form its first send goes to every client it is meant for, to nobody
      else, and (with a positive base interval) is the only send of it in that tick. */
  lemma EventsAreBroadcast(h: State, config: Config, oracle: Oracle, world: World, now: Time, released: RD.Released, k: nat, c: ClientId)
    requires RD.Inv(h, config, released) && ValidOrder(oracle.order) && k < |world.events|
    ensures var id := AfterSnapshots(h, oracle, config, world, now).nextEventId + k;
            && h.nextEventId <= id && EventTries(h.log, c, id) == []
            && BroadcastTries(EventTries(Tick(h, oracle, config, world, now).log, c, id), config, c in h.clients, c, id,
                              world, world.events[k], now)
  {
    hide *;
    var snapshotted := AfterSnapshots(h, oracle, config, world, now);
    var told := AfterBroadcast(h, oracle, config, world, now);
    AroundBroadcast(h, config, oracle, world, now, released, k, c);
    ToldInTheEnd(snapshotted, told, Tick(h, oracle, config, world, now), config, released, c in h.clients, world, world.events[k], c,
                 snapshotted.nextEventId + k, now);
  }

  lemma RunIsReliable(config: Config, oracle: Oracle, actions: seq<Action>)
    requires Legal(oracle, actions)
    ensures ValidOrder(oracle.order)
    ensures RD.Inv(Run(config, oracle, actions).host, config, Run(config, oracle, actions).released)
  {
    RunKeepsInv(config, oracle, actions);
    hide Run, RD.Inv, SD.Inv, AcksOk;
  }

  /** The same in every tick of every run. */
  lemma EveryEventIsBroadcast(config: Config, oracle: Oracle, actions: seq<Action>, world: World, now: Time, k: nat, c: ClientId)
    returns (id: EventId)
    requires Legal(oracle, actions) && k < |world.events|
    ensures var h := Run(config, oracle, actions).host;
            && h.nextEventId <= id && EventTries(h.log, c, id) == []
            && BroadcastTries(EventTries(Tick(h, oracle, config, world, now).log, c, id), config, c in h.clients, c, id,
                              world, world.events[k], now)
  {
    hide *;
    RunIsReliable(config, oracle, actions);
    var s := Run(config, oracle, actions);
    id := AfterSnapshots(s.host, oracle, config, world, now).nextEventId + k;
    EventsAreBroadcast(s.host, config, oracle, world, now, s.released, k, c);
  }
}
