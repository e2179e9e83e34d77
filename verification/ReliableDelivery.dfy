/** Invariants of the reliable-event table, kept by every host operation: the table is
    determined by the log of accepted sends, copies are paced by the backoff and capped,
    and an acknowledged event is never sent again. */
module ReliableDelivery {
  import opened Basics
  import opened Replication
  import opened Events
  import opened ClientReplication
  import opened Host
  import Interest
  import Planner

  /** When each released (acknowledged and erased) event left the table, as a log position. */
  type Released = map<(ClientId, EventId), nat>

  predicate IsFor(a: Attempt, client: ClientId, id: EventId) {
    a.peer == client && a.message.EventMessage? && a.message.event.eventId == id
  }

  /** The times at which copies of an event were accepted for a client. */
  function Copies(log: seq<Attempt>, client: ClientId, id: EventId): seq<Time> {
    if log == [] then []
    else
      var a := log[|log| - 1];
      Copies(log[..|log| - 1], client, id) + (if a.accepted && IsFor(a, client, id) then [a.at] else [])
  }

  function Pending(h: State, client: ClientId): Table {
    if client in h.states then h.states[client].pending else map[]
  }

  function TotalPending(clients: seq<ClientId>, states: map<ClientId, ClientState>): nat {
    if clients == [] then 0
    else
      var c := clients[|clients| - 1];
      TotalPending(clients[..|clients| - 1], states) + (if c in states then |states[c].pending| else 0)
  }

  // --- the invariant ---

  /** Event ids are spent in order and name one event each. */
  ghost predicate IdsOk(h: State) {
    && (forall i :: 0 <= i < |h.log| && h.log[i].message.EventMessage?
          ==> h.log[i].message.event.eventId < h.nextEventId)
    && (forall i, j :: 0 <= i < |h.log| && 0 <= j < |h.log|
          && h.log[i].message.EventMessage? && h.log[j].message.EventMessage?
          && h.log[i].message.event.eventId == h.log[j].message.event.eventId
          ==> h.log[i].message.event == h.log[j].message.event)
  }

  ghost predicate Logged(log: seq<Attempt>, event: NetworkEvent) {
    exists i :: 0 <= i < |log| && log[i].message == EventMessage(event)
  }

  ghost predicate EntryOk(log: seq<Attempt>, client: ClientId, id: EventId, p: PendingEvent) {
    var times := Copies(log, client, id);
    && p.event.eventId == id
    && times != []
    && p.sendCount == |times|
    && p.firstSentAt == times[0]
    && p.lastSentAt == times[|times| - 1]
    && Logged(log, p.event)
  }

  ghost predicate TableOk(h: State) {
    forall c, id :: id in Pending(h, c) ==> EntryOk(h.log, c, id, Pending(h, c)[id])
  }

  ghost predicate CopiesOk(times: seq<Time>, config: Config) {
    && Paced(times, config.resendBase)
    && (config.maxSendCount != 0 ==> |times| <= Max(1, config.maxSendCount))
  }

  ghost predicate PaceOk(h: State, config: Config) {
    forall c, id :: CopiesOk(Copies(h.log, c, id), config)
  }

  /** An event accepted for a client is in its table or was released, never both. */
  ghost predicate KeptOk(h: State, released: Released) {
    && (forall c: ClientId, id: EventId :: KeptHere(h, released, c, id))
    && (forall k :: k in released ==> Copies(h.log, k.0, k.1) != [])
  }

  ghost predicate KeptHere(h: State, released: Released, client: ClientId, id: EventId) {
    Copies(h.log, client, id) != [] ==> (id in Pending(h, client) <==> (client, id) !in released)
  }

  /** Nothing released is tried again. */
  ghost predicate QuietOk(h: State, released: Released) {
    forall k :: k in released ==>
      && released[k] <= |h.log|
      && forall i :: released[k] <= i < |h.log| ==> !IsFor(h.log[i], k.0, k.1)
  }

  ghost predicate CounterOk(h: State) {
    h.stats.sent - h.stats.resent == h.stats.eventAcks + TotalPending(h.clients, h.states)
  }

  ghost predicate Inv(h: State, config: Config, released: Released) {
    && WellFormed(h)
    && IdsOk(h)
    && TableOk(h)
    && PaceOk(h, config)
    && KeptOk(h, released)
    && QuietOk(h, released)
    && CounterOk(h)
  }

  /** Copies of this event have never been accepted for this client. */
  ghost predicate Fresh(h: State, client: ClientId, id: EventId) {
    Copies(h.log, client, id) == [] && id !in Pending(h, client)
  }

  /** Whatever was logged under this event's id is this event. */
  ghost predicate OnlyOneEvent(log: seq<Attempt>, event: NetworkEvent) {
    forall i :: 0 <= i < |log| && log[i].message.EventMessage?
                && log[i].message.event.eventId == event.eventId
                ==> log[i].message.event == event
  }

  /** What a caller of SendReliable must know about the event it sends. */
  ghost predicate Sendable(h: State, config: Config, client: ClientId, event: NetworkEvent, now: Time, resend: bool) {
    && client in h.states
    && event.eventId < h.nextEventId
    && OnlyOneEvent(h.log, event)
    && (if resend
        then && event.eventId in Pending(h, client)
             && IsDue(Pending(h, client)[event.eventId], now, config.resendBase, config.maxSendCount)
        else Fresh(h, client, event.eventId))
  }

  /** Everything on a due list from position n on may be resent. */
  ghost predicate AllSendable(h: State, config: Config, client: ClientId, due: seq<NetworkEvent>, n: nat, now: Time) {
    forall k :: n <= k < |due| ==> Sendable(h, config, client, due[k], now, true)
  }

  // --- one send ---

  lemma CopiesSnoc(log: seq<Attempt>, a: Attempt, client: ClientId, id: EventId)
    ensures Copies(log + [a], client, id)
         == Copies(log, client, id) + (if a.accepted && IsFor(a, client, id) then [a.at] else [])
  {
    assert (log + [a])[..|log|] == log;
  }

  lemma SendKeepsIds(h: State, config: Config, oracle: Oracle, client: ClientId, event: NetworkEvent, now: Time, resend: bool)
    requires IdsOk(h) && Sendable(h, config, client, event, now, resend)
    ensures IdsOk(SendReliable(h, oracle, client, event, now, resend))
  {
  }

  lemma LoggedStays(log: seq<Attempt>, a: Attempt, event: NetworkEvent)
    requires Logged(log, event)
    ensures Logged(log + [a], event)
  {
    var i :| 0 <= i < |log| && log[i].message == EventMessage(event);
    assert (log + [a])[i].message == EventMessage(event);
  }

  lemma EntryAfterSend(log: seq<Attempt>, a: Attempt, client: ClientId, id: EventId, p: PendingEvent)
    requires EntryOk(log, client, id, p)
    ensures a.accepted && IsFor(a, client, id)
            ==> EntryOk(log + [a], client, id, p.(lastSentAt := a.at, sendCount := p.sendCount + 1))
    ensures !(a.accepted && IsFor(a, client, id)) ==> EntryOk(log + [a], client, id, p)
  {
    CopiesSnoc(log, a, client, id);
    LoggedStays(log, a, p.event);
  }

  lemma NewEntry(log: seq<Attempt>, a: Attempt, client: ClientId, id: EventId)
    requires Copies(log, client, id) == [] && a.accepted && IsFor(a, client, id)
    ensures EntryOk(log + [a], client, id, PendingEvent(a.message.event, a.at, a.at, 1))
  {
    CopiesSnoc(log, a, client, id);
    assert (log + [a])[|log|].message == EventMessage(a.message.event);
  }

  lemma TableAfterSend(h: State, oracle: Oracle, client: ClientId, event: NetworkEvent, now: Time, resend: bool, c: ClientId)
    requires client in h.states
    ensures Pending(SendReliable(h, oracle, client, event, now, resend), c)
         == if oracle.accepts(|h.log|) && c == client then Tracked(Pending(h, c), event, now) else Pending(h, c)
    ensures SendReliable(h, oracle, client, event, now, resend).log
         == h.log + [Attempt(client, EventMessage(event), now, oracle.accepts(|h.log|), resend)]
  {
  }

  lemma SendKeepsTable(h: State, config: Config, oracle: Oracle, client: ClientId, event: NetworkEvent, now: Time, resend: bool)
    requires TableOk(h) && Sendable(h, config, client, event, now, resend)
    ensures TableOk(SendReliable(h, oracle, client, event, now, resend))
  {
    var next := SendReliable(h, oracle, client, event, now, resend);
    var a := Attempt(client, EventMessage(event), now, oracle.accepts(|h.log|), resend);
    TableAfterSend(h, oracle, client, event, now, resend, client);
    hide EntryOk, SendReliable;
    forall c, id | id in Pending(next, c)
      ensures EntryOk(next.log, c, id, Pending(next, c)[id])
    {
      TableAfterSend(h, oracle, client, event, now, resend, c);
      if id in Pending(h, c) {
        assert EntryOk(h.log, c, id, Pending(h, c)[id]);
        EntryCounts(h.log, c, id, Pending(h, c)[id]);
        EntryAfterSend(h.log, a, c, id, Pending(h, c)[id]);
      } else {
        NewEntry(h.log, a, client, event.eventId);
      }
    }
  }

  lemma EntryCounts(log: seq<Attempt>, client: ClientId, id: EventId, p: PendingEvent)
    requires EntryOk(log, client, id, p)
    ensures p.sendCount > 0 && p.sendCount == |Copies(log, client, id)|
    ensures p.lastSentAt == Copies(log, client, id)[p.sendCount - 1]
  {
  }

  lemma CopiesOkAfterSend(times: seq<Time>, config: Config, now: Time)
    requires CopiesOk(times, config)
    requires times != [] ==>
               && now >= times[|times| - 1] + Delay(config.resendBase, |times|)
               && (config.maxSendCount == 0 || |times| < config.maxSendCount)
    ensures CopiesOk(times + [now], config)
  {
  }

  lemma SendKeepsPace(h: State, config: Config, oracle: Oracle, client: ClientId, event: NetworkEvent, now: Time, resend: bool)
    requires TableOk(h) && PaceOk(h, config) && Sendable(h, config, client, event, now, resend)
    ensures PaceOk(SendReliable(h, oracle, client, event, now, resend), config)
  {
    var next := SendReliable(h, oracle, client, event, now, resend);
    var a := Attempt(client, EventMessage(event), now, oracle.accepts(|h.log|), resend);
    TableAfterSend(h, oracle, client, event, now, resend, client);
    hide CopiesOk, EntryOk, SendReliable;
    forall c, id
      ensures CopiesOk(Copies(next.log, c, id), config)
    {
      CopiesSnoc(h.log, a, c, id);
      assert CopiesOk(Copies(h.log, c, id), config);
      if a.accepted && IsFor(a, c, id) {
        if resend {
          assert EntryOk(h.log, c, id, Pending(h, c)[id]);
          EntryCounts(h.log, c, id, Pending(h, c)[id]);
        }
        CopiesOkAfterSend(Copies(h.log, c, id), config, now);
      } else {
        assert Copies(h.log, c, id) + [] == Copies(h.log, c, id);
      }
    }
  }

  lemma SendableNotReleased(h: State, config: Config, client: ClientId, event: NetworkEvent, now: Time, resend: bool, released: Released)
    requires TableOk(h) && KeptOk(h, released) && Sendable(h, config, client, event, now, resend)
    ensures (client, event.eventId) !in released
  {
    var id := event.eventId;
    hide EntryOk;
    if resend {
      assert EntryOk(h.log, client, id, Pending(h, client)[id]);
      EntryCounts(h.log, client, id, Pending(h, client)[id]);
    }
    assert KeptHere(h, released, client, id);
    assert (client, id) in released ==> Copies(h.log, client, id) != [];
  }

  lemma PendingAfterSend(h: State, oracle: Oracle, client: ClientId, event: NetworkEvent, now: Time, resend: bool, c: ClientId, id: EventId)
    requires client in h.states
    ensures id in Pending(SendReliable(h, oracle, client, event, now, resend), c)
       <==> id in Pending(h, c) || (oracle.accepts(|h.log|) && c == client && id == event.eventId)
  {
  }

  lemma SendKeepsKept(h: State, config: Config, oracle: Oracle, client: ClientId, event: NetworkEvent, now: Time, resend: bool, released: Released)
    requires KeptOk(h, released) && client in h.states && (client, event.eventId) !in released
    requires Copies(h.log, client, event.eventId) != [] ==> event.eventId in Pending(h, client)
    ensures KeptOk(SendReliable(h, oracle, client, event, now, resend), released)
  {
    var next := SendReliable(h, oracle, client, event, now, resend);
    var a := Attempt(client, EventMessage(event), now, oracle.accepts(|h.log|), resend);
    assert next.log == h.log + [a];
    hide SendReliable, Pending;
    forall c: ClientId, id: EventId
      ensures KeptHere(next, released, c, id)
    {
      assert KeptHere(h, released, c, id);
      CopiesSnoc(h.log, a, c, id);
      PendingAfterSend(h, oracle, client, event, now, resend, c, id);
    }
    forall k | k in released
      ensures Copies(next.log, k.0, k.1) != []
    {
      CopiesSnoc(h.log, a, k.0, k.1);
    }
  }

  lemma SendKeepsQuiet(h: State, oracle: Oracle, client: ClientId, event: NetworkEvent, now: Time, resend: bool, released: Released)
    requires QuietOk(h, released) && (client, event.eventId) !in released
    ensures QuietOk(SendReliable(h, oracle, client, event, now, resend), released)
  {
    var next := SendReliable(h, oracle, client, event, now, resend);
    forall k, i | k in released && released[k] <= i < |next.log|
      ensures !IsFor(next.log[i], k.0, k.1)
    {
      if i < |h.log| {
        assert next.log[i] == h.log[i];
      } else {
        assert k == (k.0, k.1);
      }
    }
  }

  lemma {:induction false} TotalPendingUpdate(clients: seq<ClientId>, states: map<ClientId, ClientState>, client: ClientId, s: ClientState)
    requires Distinct(clients) && client in states
    ensures TotalPending(clients, states[client := s])
         == TotalPending(clients, states) + (if client in clients then |s.pending| - |states[client].pending| else 0)
  {
    if clients != [] {
      var front := clients[..|clients| - 1];
      assert forall c :: c in clients <==> c in front || c == clients[|clients| - 1];
      TotalPendingUpdate(front, states, client, s);
    }
  }

  lemma SendKeepsCounter(h: State, config: Config, oracle: Oracle, client: ClientId, event: NetworkEvent, now: Time, resend: bool)
    requires WellFormed(h) && CounterOk(h) && TableOk(h) && Sendable(h, config, client, event, now, resend)
    ensures WellFormed(SendReliable(h, oracle, client, event, now, resend))
    ensures CounterOk(SendReliable(h, oracle, client, event, now, resend))
  {
    if oracle.accepts(|h.log|) {
      var s := h.states[client];
      TotalPendingUpdate(h.clients, h.states, client, s.(pending := Tracked(s.pending, event, now)));
      if event.eventId in s.pending {
        EntryCounts(h.log, client, event.eventId, Pending(h, client)[event.eventId]);
      }
      TrackedSize(s.pending, event, now);
    }
  }

  lemma TrackedSize(pending: Table, event: NetworkEvent, now: Time)
    ensures |Tracked(pending, event, now)| == |pending| + (if event.eventId in pending then 0 else 1)
  {
    var next := Tracked(pending, event, now);
    if event.eventId in pending {
      assert next.Keys == pending.Keys;
    } else {
      assert next.Keys == pending.Keys + {event.eventId};
    }
    assert |next| == |next.Keys| && |pending| == |pending.Keys|;
  }

  lemma SendKeepsInv(h: State, config: Config, oracle: Oracle, client: ClientId, event: NetworkEvent, now: Time, resend: bool, released: Released)
    requires Inv(h, config, released) && Sendable(h, config, client, event, now, resend)
    ensures Inv(SendReliable(h, oracle, client, event, now, resend), config, released)
  {
    SendKeepsIds(h, config, oracle, client, event, now, resend);
    SendKeepsTable(h, config, oracle, client, event, now, resend);
    SendKeepsPace(h, config, oracle, client, event, now, resend);
    SendableNotReleased(h, config, client, event, now, resend, released);
    SendKeepsKept(h, config, oracle, client, event, now, resend, released);
    SendKeepsQuiet(h, oracle, client, event, now, resend, released);
    SendKeepsCounter(h, config, oracle, client, event, now, resend);
  }

  // --- fresh events ---

  lemma {:induction false} UnloggedHasNoCopies(log: seq<Attempt>, client: ClientId, id: EventId)
    requires forall i :: 0 <= i < |log| ==> !IsFor(log[i], client, id)
    ensures Copies(log, client, id) == []
  {
    if log != [] {
      UnloggedHasNoCopies(log[..|log| - 1], client, id);
    }
  }

  lemma NextIdIsFresh(h: State, client: ClientId)
    requires IdsOk(h) && TableOk(h)
    ensures Fresh(h, client, h.nextEventId)
  {
    UnloggedHasNoCopies(h.log, client, h.nextEventId);
    assert h.nextEventId in Pending(h, client) ==> EntryOk(h.log, client, h.nextEventId, Pending(h, client)[h.nextEventId]);
  }

  lemma InvWellFormed(h: State, config: Config, released: Released)
    requires Inv(h, config, released)
    ensures WellFormed(h)
  {
  }

  lemma InvParts(h: State, config: Config, released: Released)
    requires Inv(h, config, released)
    ensures WellFormed(h) && IdsOk(h) && TableOk(h)
  {
  }

  /** Clients from position n on have never been sent this event. */
  ghost predicate FreshFrom(h: State, clients: seq<ClientId>, n: nat, id: EventId) {
    forall k :: n <= k < |clients| ==> Fresh(h, clients[k], id)
  }

  lemma SendLeavesOthersFresh(h: State, oracle: Oracle, clients: seq<ClientId>, n: nat, event: NetworkEvent, now: Time)
    requires Distinct(clients) && n < |clients| && clients[n] in h.states
    requires FreshFrom(h, clients, n, event.eventId)
    ensures FreshFrom(SendReliable(h, oracle, clients[n], event, now, false), clients, n + 1, event.eventId)
  {
    var next := SendReliable(h, oracle, clients[n], event, now, false);
    TableAfterSend(h, oracle, clients[n], event, now, false, clients[n]);
    hide SendReliable;
    forall k | n + 1 <= k < |clients|
      ensures Fresh(next, clients[k], event.eventId)
    {
      TableAfterSend(h, oracle, clients[n], event, now, false, clients[k]);
      CopiesSnoc(h.log, next.log[|h.log|], clients[k], event.eventId);
    }
  }

  lemma SendKeepsOnlyOne(h: State, oracle: Oracle, client: ClientId, event: NetworkEvent, now: Time, resend: bool)
    requires OnlyOneEvent(h.log, event) && client in h.states
    ensures var next := SendReliable(h, oracle, client, event, now, resend);
            && OnlyOneEvent(next.log, event)
            && next.clients == h.clients && next.states.Keys == h.states.Keys && next.nextEventId == h.nextEventId
  {
  }

  /** A numbered event going out to its clients, one after another. */
  lemma {:induction false} SendToClientsKeepsInv(h: State, config: Config, oracle: Oracle, clients: seq<ClientId>, n: nat, event: NetworkEvent, now: Time, released: Released)
    requires n <= |clients| && Distinct(clients)
    requires forall c :: c in clients ==> c in h.states
    requires FreshFrom(h, clients, 0, event.eventId)
    requires Inv(h, config, released) && event.eventId < h.nextEventId && OnlyOneEvent(h.log, event)
    ensures var next := SendToClients(h, oracle, clients, n, event, now);
            && Inv(next, config, released)
            && next.clients == h.clients && next.states.Keys == h.states.Keys
            && next.nextEventId == h.nextEventId
            && FreshFrom(next, clients, n, event.eventId)
            && OnlyOneEvent(next.log, event)
  {
    hide Inv;
    if n > 0 {
      SendToClientsKeepsInv(h, config, oracle, clients, n - 1, event, now, released);
      var before := SendToClients(h, oracle, clients, n - 1, event, now);
      var only := ObserverOnly(event.payload);
      if only.None? || only.value == clients[n - 1] {
        assert Fresh(before, clients[n - 1], event.eventId);
        assert clients[n - 1] in before.states;
        hide Fresh, FreshFrom, OnlyOneEvent, SendReliable;
        SendKeepsInv(before, config, oracle, clients[n - 1], event, now, false, released);
        SendLeavesOthersFresh(before, oracle, clients, n - 1, event, now);
        SendKeepsOnlyOne(before, oracle, clients[n - 1], event, now, false);
      }
    }
  }

  /** Spending an id leaves it unused: no copy, no entry, no logged event has it. */
  lemma NumberingKeepsInv(h: State, config: Config, clients: seq<ClientId>, event: NetworkEvent, released: Released)
    requires Inv(h, config, released) && event.eventId == h.nextEventId
    ensures var numbered := h.(nextEventId := h.nextEventId + 1);
            && Inv(numbered, config, released)
            && FreshFrom(numbered, clients, 0, event.eventId)
            && OnlyOneEvent(numbered.log, event)
  {
    var numbered := h.(nextEventId := h.nextEventId + 1);
    InvParts(h, config, released);
    hide Inv;
    LeavingTablesKeepsInv(h, numbered, config, released);
    forall k | 0 <= k < |clients|
      ensures Fresh(numbered, clients[k], event.eventId)
    {
      NextIdIsFresh(h, clients[k]);
    }
  }

  lemma BroadcastOneKeepsInv(h: State, config: Config, oracle: Oracle, world: World, event: DomainEvent, clients: seq<ClientId>, now: Time, released: Released)
    requires Inv(h, config, released) && Distinct(clients)
    requires forall c :: c in clients ==> c in h.states
    ensures var next := BroadcastOne(h, oracle, world, event, clients, now);
            && Inv(next, config, released)
            && next.clients == h.clients && next.states.Keys == h.states.Keys
  {
    hide Inv, FreshFrom, OnlyOneEvent;
    var numbered := h.(nextEventId := h.nextEventId + 1);
    NumberingKeepsInv(h, config, clients, NetworkEvent(h.nextEventId, 0, 0, EnteredDTO(0, 0)), released);
    match ToNetworkEvent(h.nextEventId, world.tick, world.time, event)
    case None =>
    case Some(e) =>
      NumberingKeepsInv(h, config, clients, e, released);
      SendToClientsKeepsInv(numbered, config, oracle, clients, |clients|, e, now, released);
  }

  lemma {:induction false} BroadcastKeepsInv(h: State, config: Config, oracle: Oracle, world: World, events: seq<DomainEvent>, n: nat, now: Time, released: Released)
    requires Inv(h, config, released) && n <= |events|
    ensures var next := Broadcast(h, oracle, world, events, n, now);
            && Inv(next, config, released)
            && next.clients == h.clients && next.states.Keys == h.states.Keys
  {
    InvWellFormed(h, config, released);
    hide Inv;
    if n > 0 {
      BroadcastKeepsInv(h, config, oracle, world, events, n - 1, now, released);
      BroadcastOneKeepsInv(Broadcast(h, oracle, world, events, n - 1, now), config, oracle, world, events[n - 1], h.clients, now, released);
    }
  }

  lemma {:induction false} SendInterestKeepsInv(h: State, config: Config, oracle: Oracle, world: World, client: ClientId, events: seq<DomainEvent>, n: nat, now: Time, released: Released)
    requires Inv(h, config, released) && n <= |events| && client in h.states
    ensures var next := SendInterest(h, oracle, world, client, events, n, now);
            && Inv(next, config, released)
            && next.clients == h.clients && next.states.Keys == h.states.Keys
  {
    hide Inv;
    if n > 0 {
      SendInterestKeepsInv(h, config, oracle, world, client, events, n - 1, now, released);
      BroadcastOneKeepsInv(SendInterest(h, oracle, world, client, events, n - 1, now), config, oracle, world, events[n - 1], [client], now, released);
    }
  }

  // --- resends ---

  /** Due events resent one after another: sending one leaves the others due. */
  lemma {:induction false} ResendListKeepsInv(h: State, config: Config, oracle: Oracle, client: ClientId, due: seq<NetworkEvent>, n: nat, now: Time, released: Released)
    requires n <= |due| && Inv(h, config, released) && client in h.states
    requires DistinctEvents(due) && AllSendable(h, config, client, due, 0, now)
    ensures var next := ResendList(h, oracle, client, due, n, now);
            && Inv(next, config, released)
            && next.clients == h.clients && next.states.Keys == h.states.Keys
            && AllSendable(next, config, client, due, n, now)
  {
    hide Inv;
    if n > 0 {
      ResendListKeepsInv(h, config, oracle, client, due, n - 1, now, released);
      var before := ResendList(h, oracle, client, due, n - 1, now);
      assert Sendable(before, config, client, due[n - 1], now, true);
      SendKeepsInv(before, config, oracle, client, due[n - 1], now, true, released);
      forall k | n <= k < |due|
        ensures Sendable(SendReliable(before, oracle, client, due[n - 1], now, true), config, client, due[k], now, true)
      {
        assert Sendable(before, config, client, due[k], now, true);
      }
    }
  }

  lemma PendingIsSendable(h: State, config: Config, released: Released, client: ClientId, id: EventId, now: Time)
    requires Inv(h, config, released) && client in h.states && id in h.states[client].pending
    ensures var p := h.states[client].pending[id];
            && p.event.eventId == id
            && (IsDue(p, now, config.resendBase, config.maxSendCount) ==> Sendable(h, config, client, p.event, now, true))
  {
    var p := h.states[client].pending[id];
    assert EntryOk(h.log, client, id, Pending(h, client)[id]);
    var i :| 0 <= i < |h.log| && h.log[i].message == EventMessage(p.event);
    assert OnlyOneEvent(h.log, p.event);
  }

  lemma DueIsSendable(h: State, config: Config, oracle: Oracle, client: ClientId, now: Time, released: Released)
    requires Inv(h, config, released) && client in h.states && ValidOrder(oracle.order)
    ensures var due := DueFor(h, oracle, config, client, now);
            DistinctEvents(due) && AllSendable(h, config, client, due, 0, now)
  {
    var pending := h.states[client].pending;
    var walk := oracle.order(|h.log|, client, pending.Keys);
    assert Enumerates(walk, pending.Keys);
    assert forall id :: id in walk ==> id in pending;
    forall id | id in pending
      ensures pending[id].event.eventId == id
      ensures IsDue(pending[id], now, config.resendBase, config.maxSendCount)
              ==> Sendable(h, config, client, pending[id].event, now, true)
    {
      PendingIsSendable(h, config, released, client, id, now);
    }
    DueEventsAreDue(pending, walk, now, config.resendBase, config.maxSendCount);
    var due := DueEvents(pending, walk, now, config.resendBase, config.maxSendCount);
    hide Inv, Sendable, DueEvents, DistinctEvents;
    forall k | 0 <= k < |due|
      ensures Sendable(h, config, client, due[k], now, true)
    {
      assert due[k].eventId in walk;
    }
    assert due == DueFor(h, oracle, config, client, now);
  }

  lemma ResendClientKeepsInv(h: State, config: Config, oracle: Oracle, client: ClientId, now: Time, released: Released)
    requires Inv(h, config, released) && client in h.states && ValidOrder(oracle.order)
    ensures var next := ResendClient(h, oracle, config, client, now);
            && Inv(next, config, released)
            && next.clients == h.clients && next.states.Keys == h.states.Keys
  {
    DueIsSendable(h, config, oracle, client, now, released);
    hide Inv, AllSendable, DistinctEvents, DueFor;
    var due := DueFor(h, oracle, config, client, now);
    ResendListKeepsInv(h, config, oracle, client, due, |due|, now, released);
  }

  lemma {:induction false} ResendKeepsInv(h: State, config: Config, oracle: Oracle, walk: seq<ClientId>, n: nat, now: Time, released: Released)
    requires Inv(h, config, released) && n <= |walk| && ValidOrder(oracle.order)
    requires forall c :: c in walk ==> c in h.states
    ensures var next := Resend(h, oracle, config, walk, n, now);
            && Inv(next, config, released)
            && next.clients == h.clients && next.states.Keys == h.states.Keys
  {
    hide Inv;
    if n > 0 {
      ResendKeepsInv(h, config, oracle, walk, n - 1, now, released);
      ResendClientKeepsInv(Resend(h, oracle, config, walk, n - 1, now), config, oracle, walk[n - 1], now, released);
    }
  }

  // --- steps that leave the table alone ---

  /** From h to next only snapshot sends were logged and no pending table changed. */
  ghost predicate LeavesTables(h: State, next: State) {
    && WellFormed(next)
    && h.log <= next.log
    && (forall i :: |h.log| <= i < |next.log| ==> next.log[i].message.SnapshotMessage?)
    && (forall c :: Pending(next, c) == Pending(h, c))
    && h.nextEventId <= next.nextEventId
    && next.stats.sent == h.stats.sent && next.stats.resent == h.stats.resent
    && next.stats.eventAcks == h.stats.eventAcks
    && TotalPending(next.clients, next.states) == TotalPending(h.clients, h.states)
  }

  lemma {:induction false} SnapshotSendsAddNoCopies(log: seq<Attempt>, longer: seq<Attempt>, client: ClientId, id: EventId)
    requires log <= longer
    requires forall i :: |log| <= i < |longer| ==> longer[i].message.SnapshotMessage?
    ensures Copies(longer, client, id) == Copies(log, client, id)
  {
    if |longer| > |log| {
      SnapshotSendsAddNoCopies(log, longer[..|longer| - 1], client, id);
    } else {
      assert log == longer;
    }
  }

  lemma SameCopies(h: State, next: State)
    requires LeavesTables(h, next)
    ensures forall c, id :: Copies(next.log, c, id) == Copies(h.log, c, id)
  {
    forall c, id
      ensures Copies(next.log, c, id) == Copies(h.log, c, id)
    {
      SnapshotSendsAddNoCopies(h.log, next.log, c, id);
    }
  }

  lemma LeavingTablesKeepsTable(h: State, next: State)
    requires LeavesTables(h, next) && TableOk(h)
    ensures TableOk(next)
  {
    SameCopies(h, next);
    forall c, id | id in Pending(next, c)
      ensures EntryOk(next.log, c, id, Pending(next, c)[id])
    {
      assert EntryOk(h.log, c, id, Pending(h, c)[id]);
      var i :| 0 <= i < |h.log| && h.log[i].message == EventMessage(Pending(h, c)[id].event);
      assert next.log[i] == h.log[i];
    }
  }

  lemma LeavingTablesKeepsRest(h: State, next: State, config: Config, released: Released)
    requires LeavesTables(h, next) && PaceOk(h, config) && KeptOk(h, released) && QuietOk(h, released)
    ensures PaceOk(next, config) && KeptOk(next, released) && QuietOk(next, released)
  {
    SameCopies(h, next);
    forall c, id
      ensures CopiesOk(Copies(next.log, c, id), config)
    {
      assert CopiesOk(Copies(h.log, c, id), config);
    }
    forall c: ClientId, id: EventId
      ensures KeptHere(next, released, c, id)
    {
      assert KeptHere(h, released, c, id);
    }
    forall k, i | k in released && released[k] <= i < |next.log|
      ensures !IsFor(next.log[i], k.0, k.1)
    {
      if i < |h.log| {
        assert next.log[i] == h.log[i];
      }
    }
  }

  lemma LeavingTablesKeepsInv(h: State, next: State, config: Config, released: Released)
    requires Inv(h, config, released) && LeavesTables(h, next)
    ensures Inv(next, config, released)
  {
    LeavingTablesKeepsTable(h, next);
    LeavingTablesKeepsRest(h, next, config, released);
  }

  /** A change of one client's state that keeps its pending table. */
  lemma SameTableLeavesTables(h: State, next: State, client: ClientId)
    requires WellFormed(h) && client in h.states && client in next.states
    requires next.clients == h.clients && next.log == h.log && h.nextEventId <= next.nextEventId
    requires next.states == h.states[client := next.states[client]]
    requires next.states[client].pending == h.states[client].pending
    requires next.stats.sent == h.stats.sent && next.stats.resent == h.stats.resent && next.stats.eventAcks == h.stats.eventAcks
    ensures LeavesTables(h, next)
  {
    TotalPendingUpdate(h.clients, h.states, client, next.states[client]);
  }

  lemma MoveKeepsInv(h: State, config: Config, frame: Interest.Frame, snapshot: Snapshot, client: ClientId, released: Released)
    requires Inv(h, config, released) && client in h.states
    ensures Inv(MoveInterest(h, frame, snapshot, client), config, released)
  {
    InvWellFormed(h, config, released);
    hide Inv;
    SameTableLeavesTables(h, MoveInterest(h, frame, snapshot, client), client);
    LeavingTablesKeepsInv(h, MoveInterest(h, frame, snapshot, client), config, released);
  }

  lemma ShiftInterestKeepsInv(h: State, config: Config, oracle: Oracle, world: World, snapshot: Snapshot, client: ClientId, now: Time, released: Released)
    requires Inv(h, config, released) && client in h.states
    ensures var next := ShiftInterest(h, oracle, world, snapshot, client, now);
            && Inv(next, config, released)
            && next.clients == h.clients && next.states.Keys == h.states.Keys
  {
    hide Inv;
    var frame := InterestFrame(h, oracle, snapshot, client);
    MoveKeepsInv(h, config, frame, snapshot, client, released);
    var moved := MoveInterest(h, frame, snapshot, client);
    var events := InterestEvents(frame, client);
    hide InterestEvents, InterestFrame;
    SendInterestKeepsInv(moved, config, oracle, world, client, events, |events|, now, released);
  }

  lemma RecordingKeepsInv(h: State, shifted: State, config: Config, planned: Planner.Planned, client: ClientId, now: Time, released: Released)
    requires Inv(shifted, config, released) && client in shifted.states
    ensures var done := MarkSent(RecordSnapshot(shifted, config, planned, DecisionFor(h, client), client), config, client, now);
            && Inv(done, config, released)
            && done.clients == shifted.clients && done.states.Keys == shifted.states.Keys
  {
    InvWellFormed(shifted, config, released);
    hide Inv;
    var done := MarkSent(RecordSnapshot(shifted, config, planned, DecisionFor(h, client), client), config, client, now);
    SameTableLeavesTables(shifted, done, client);
    LeavingTablesKeepsInv(shifted, done, config, released);
  }

  lemma TryingKeepsInv(h: State, config: Config, oracle: Oracle, planned: Planner.Planned, client: ClientId, now: Time, released: Released)
    requires Inv(h, config, released)
    ensures var tried := TrySnapshot(h, oracle, planned, client, now);
            Inv(tried, config, released) && tried.clients == h.clients && tried.states == h.states
  {
    InvWellFormed(h, config, released);
    hide Inv;
    assert LeavesTables(h, TrySnapshot(h, oracle, planned, client, now));
    LeavingTablesKeepsInv(h, TrySnapshot(h, oracle, planned, client, now), config, released);
  }

  lemma SkippingKeepsInv(h: State, config: Config, released: Released)
    requires Inv(h, config, released)
    ensures Inv(h.(stats := h.stats.(skipped := h.stats.skipped + 1)), config, released)
  {
    InvWellFormed(h, config, released);
    hide Inv;
    LeavingTablesKeepsInv(h, h.(stats := h.stats.(skipped := h.stats.skipped + 1)), config, released);
  }

  lemma SnapshotTurnKeepsInv(h: State, config: Config, oracle: Oracle, world: World, client: ClientId, now: Time, released: Released)
    requires Inv(h, config, released) && client in h.states
    ensures var next := SnapshotTurn(h, oracle, config, world, client, now);
            && Inv(next, config, released)
            && next.clients == h.clients && next.states.Keys == h.states.Keys
  {
    hide Inv;
    if now < h.states[client].nextSendAt {
      SkippingKeepsInv(h, config, released);
    } else {
      hide TrySnapshot;
      var planned := PlannedFor(h, config, world, client);
      TryingKeepsInv(h, config, oracle, planned, client, now, released);
      var tried := TrySnapshot(h, oracle, planned, client, now);
      if oracle.accepts(|h.log|) {
        hide ShiftInterest, RecordSnapshot, PlannedFor, MarkSent;
        ShiftInterestKeepsInv(tried, config, oracle, world, planned.snapshot, client, now, released);
        var shifted := ShiftInterest(tried, oracle, world, planned.snapshot, client, now);
        RecordingKeepsInv(h, shifted, config, planned, client, now, released);
      }
    }
  }

  lemma {:induction false} SnapshotsKeepInv(h: State, config: Config, oracle: Oracle, world: World, n: nat, now: Time, released: Released)
    requires Inv(h, config, released) && n <= |h.clients|
    ensures var next := Snapshots(h, oracle, config, world, n, now);
            && Inv(next, config, released)
            && next.clients == h.clients && next.states.Keys == h.states.Keys
  {
    InvWellFormed(h, config, released);
    hide Inv;
    if n > 0 {
      SnapshotsKeepInv(h, config, oracle, world, n - 1, now, released);
      assert h.clients[n - 1] in h.clients;
      SnapshotTurnKeepsInv(Snapshots(h, oracle, config, world, n - 1, now), config, oracle, world, h.clients[n - 1], now, released);
    }
  }

  /** A whole tick keeps the reliable-delivery invariant. */
  lemma TickKeepsInv(h: State, config: Config, oracle: Oracle, world: World, now: Time, released: Released)
    requires Inv(h, config, released) && ValidOrder(oracle.order)
    ensures Inv(Tick(h, oracle, config, world, now), config, released)
  {
    hide Inv;
    SnapshotsKeepInv(h, config, oracle, world, |h.clients|, now, released);
    var snapshotted := Snapshots(h, oracle, config, world, |h.clients|, now);
    BroadcastKeepsInv(snapshotted, config, oracle, world, world.events, |world.events|, now, released);
    var told := Broadcast(snapshotted, oracle, world, world.events, |world.events|, now);
    var walk := oracle.order(|told.log|, 0, told.states.Keys);
    assert Enumerates(walk, told.states.Keys);
    ResendKeepsInv(told, config, oracle, walk, |walk|, now, released);
  }

  // --- messages from clients ---

  lemma InitialInv(config: Config)
    ensures Inv(INITIAL, config, map[])
  {
  }

  lemma LoginLeavesTables(h: State, client: ClientId)
    requires WellFormed(h) && client !in h.clients
    ensures LeavesTables(h, Login(h, client))
  {
    LoginIsWellFormed(h, client);
    LoginKeepsTotal(h, client);
    LoginKeepsPending(h, client);
    hide TotalPending, WellFormed, Pending;
  }

  lemma LoginKeepsPending(h: State, client: ClientId)
    requires client !in h.states
    ensures forall c :: Pending(Login(h, client), c) == Pending(h, c)
  {
    forall c
      ensures Pending(Login(h, client), c) == Pending(h, c)
    {
      if c == client {
        assert FRESH_CLIENT.pending == map[];
      }
    }
  }

  lemma LoginKeepsTotal(h: State, client: ClientId)
    requires client !in h.clients && client !in h.states
    ensures TotalPending(h.clients + [client], h.states[client := FRESH_CLIENT]) == TotalPending(h.clients, h.states)
  {
    assert (h.clients + [client])[..|h.clients|] == h.clients;
    TotalPendingOthers(h.clients, h.states, client, FRESH_CLIENT);
  }

  lemma LoginKeepsInv(h: State, config: Config, client: ClientId, released: Released)
    requires Inv(h, config, released)
    ensures Inv(Login(h, client), config, released)
  {
    InvWellFormed(h, config, released);
    hide Inv;
    if client !in h.clients {
      LoginLeavesTables(h, client);
      LeavingTablesKeepsInv(h, Login(h, client), config, released);
    }
  }

  lemma {:induction false} TotalPendingOthers(clients: seq<ClientId>, states: map<ClientId, ClientState>, client: ClientId, s: ClientState)
    requires client !in clients
    ensures TotalPending(clients, states[client := s]) == TotalPending(clients, states)
  {
    if clients != [] {
      TotalPendingOthers(clients[..|clients| - 1], states, client, s);
    }
  }

  lemma SnapshotAckKeepsInv(h: State, config: Config, client: ClientId, id: SnapshotId, released: Released)
    requires Inv(h, config, released)
    ensures Inv(SnapshotAck(h, client, id), config, released)
  {
    InvWellFormed(h, config, released);
    hide Inv;
    var next := SnapshotAck(h, client, id);
    if client in h.states {
      assert h.states[client := h.states[client]] == h.states;
      SameTableLeavesTables(h, next, client);
    }
    LeavingTablesKeepsInv(h, next, config, released);
  }

  function Release(h: State, released: Released, client: ClientId, id: EventId): Released {
    if id in Pending(h, client) then released[(client, id) := |h.log|] else released
  }

  lemma ReleaseKeepsTable(h: State, client: ClientId, id: EventId)
    requires TableOk(h)
    ensures TableOk(EventAck(h, client, id))
  {
    var next := EventAck(h, client, id);
    forall c, e | e in Pending(next, c)
      ensures EntryOk(next.log, c, e, Pending(next, c)[e])
    {
      assert EntryOk(h.log, c, e, Pending(h, c)[e]);
    }
  }

  lemma PendingAfterRelease(h: State, client: ClientId, id: EventId, c: ClientId, e: EventId)
    ensures e in Pending(EventAck(h, client, id), c) <==> e in Pending(h, c) && !(c == client && e == id)
    ensures EventAck(h, client, id).log == h.log
  {
  }

  lemma ReleaseKeepsKept(h: State, client: ClientId, id: EventId, released: Released)
    requires TableOk(h) && KeptOk(h, released)
    ensures KeptOk(EventAck(h, client, id), Release(h, released, client, id))
  {
    var next := EventAck(h, client, id);
    var more := Release(h, released, client, id);
    PendingAfterRelease(h, client, id, client, id);
    hide EventAck;
    assert id in Pending(h, client) ==> EntryOk(h.log, client, id, Pending(h, client)[id]);
    hide Pending, EntryOk, Copies;
    forall c: ClientId, e: EventId
      ensures KeptHere(next, more, c, e)
    {
      assert KeptHere(h, released, c, e);
      PendingAfterRelease(h, client, id, c, e);
    }
  }

  lemma ReleaseKeepsQuiet(h: State, client: ClientId, id: EventId, released: Released)
    requires QuietOk(h, released)
    ensures QuietOk(EventAck(h, client, id), Release(h, released, client, id))
  {
  }

  lemma ReleaseKeepsCounter(h: State, client: ClientId, id: EventId)
    requires WellFormed(h) && CounterOk(h)
    ensures WellFormed(EventAck(h, client, id)) && CounterOk(EventAck(h, client, id))
  {
    if id in Pending(h, client) {
      var s := h.states[client].(pending := h.states[client].pending - {id});
      TotalPendingUpdate(h.clients, h.states, client, s);
      assert s.pending.Keys == h.states[client].pending.Keys - {id};
      assert |s.pending.Keys| == |h.states[client].pending.Keys| - 1;
    }
  }

  lemma EventAckKeepsInv(h: State, config: Config, client: ClientId, id: EventId, released: Released)
    requires Inv(h, config, released)
    ensures Inv(EventAck(h, client, id), config, Release(h, released, client, id))
  {
    ReleaseKeepsTable(h, client, id);
    ReleaseKeepsKept(h, client, id, released);
    ReleaseKeepsQuiet(h, client, id, released);
    ReleaseKeepsCounter(h, client, id);
  }

  // --- what the invariant says about one event and one client ---

  /** The last of n copies comes at least the sum of the backoff waits after the first:
      a wait doubled four times, in closed form. A non-zero cap bounds n. */
  ghost predicate SpacedAndCapped(times: seq<Time>, config: Config) {
    var n := |times|;
    && (1 <= n <= 6 ==> times[n - 1] - times[0] >= config.resendBase * (Pow2(n - 1) - 1))
    && (n >= 6 ==> times[n - 1] - times[0] >= config.resendBase * (16 * n - 65))
    && (config.maxSendCount != 0 ==> n <= Max(1, config.maxSendCount))
  }

  lemma PacedIsSpaced(times: seq<Time>, config: Config)
    requires CopiesOk(times, config)
    ensures SpacedAndCapped(times, config)
  {
    if times != [] {
      PacedElapsed(times, config.resendBase);
      MinElapsedIsWaits(config.resendBase, |times|);
      WaitsClosedForm(|times|);
    }
  }

  lemma BackoffBound(h: State, config: Config, released: Released, client: ClientId, id: EventId)
    requires Inv(h, config, released)
    ensures SpacedAndCapped(Copies(h.log, client, id), config)
  {
    PacedIsSpaced(Copies(h.log, client, id), config);
  }
}
