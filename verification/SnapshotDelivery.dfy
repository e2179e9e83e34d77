/** Invariants of snapshot sending and interest, kept by every host operation: ids are
    fresh and increase, cached baselines were sent, deltas name baselines the client has
    applied, and the announced interest changes add up to the set last sent. */
module SnapshotDelivery {
  import opened Basics
  import opened Replication
  import opened Events
  import opened ClientReplication
  import opened BaselineCache
  import opened Host
  import Planner
  import Interest

  /** For each client, the snapshots it has applied so far. */
  type Applied = map<ClientId, seq<Snapshot>>

  function AppliedBy(applied: Applied, client: ClientId): seq<Snapshot> {
    if client in applied then applied[client] else []
  }

  ghost predicate SentTo(log: seq<Attempt>, client: ClientId, snapshot: Snapshot) {
    exists i :: 0 <= i < |log| && log[i].peer == client && log[i].accepted && log[i].message == SnapshotMessage(snapshot)
  }

  /** The entities of the last snapshot the transport accepted for a client. */
  function LastSent(log: seq<Attempt>, client: ClientId): seq<EntityState> {
    if log == [] then []
    else
      var a := log[|log| - 1];
      if a.peer == client && a.accepted && a.message.SnapshotMessage? then a.message.snapshot.entities
      else LastSent(log[..|log| - 1], client)
  }

  predicate IsInterest(payload: Payload) {
    payload.EnteredDTO? || payload.LeftDTO?
  }

  /** A first (not repeated) announcement of an interest change to a client. */
  predicate Announces(a: Attempt, client: ClientId) {
    a.peer == client && !a.resend && a.message.EventMessage? && IsInterest(a.message.event.payload)
  }

  function Announced(known: set<EntityId>, payload: Payload): set<EntityId> {
    match payload
    case EnteredDTO(id, _) => known + {id}
    case LeftDTO(id, _) => known - {id}
    case _ => known
  }

  /** All enter and leave events issued to a client, folded. */
  function Folded(log: seq<Attempt>, client: ClientId): set<EntityId> {
    if log == [] then {}
    else
      var before := Folded(log[..|log| - 1], client);
      var a := log[|log| - 1];
      if Announces(a, client) then Announced(before, a.message.event.payload) else before
  }

  /** Enter events are issued only for unknown entities and leave events for known ones. */
  ghost predicate Alternates(log: seq<Attempt>, client: ClientId) {
    forall i :: 0 <= i < |log| && Announces(log[i], client) ==>
      var known := Folded(log[..i], client);
      var payload := log[i].message.event.payload;
      && (payload.EnteredDTO? ==> payload.entityId !in known)
      && (payload.LeftDTO? ==> payload.entityId in known)
  }

  function TotalKnown(clients: seq<ClientId>, states: map<ClientId, ClientState>): nat {
    if clients == [] then 0
    else
      var c := clients[|clients| - 1];
      TotalKnown(clients[..|clients| - 1], states) + (if c in states then |states[c].known| else 0)
  }

  function DeltaAttempts(log: seq<Attempt>): nat {
    if log == [] then 0
    else
      var a := log[|log| - 1];
      DeltaAttempts(log[..|log| - 1])
      + (if a.message.SnapshotMessage? && a.message.snapshot.deliveryKind == DeltaEligible then 1 else 0)
  }

  // --- the invariant ---

  /** Snapshot ids are non-zero and strictly increase along the log. */
  ghost predicate SnapshotIdsOk(h: State) {
    && h.nextSnapshotId >= 1
    && (forall i :: 0 <= i < |h.log| && h.log[i].message.SnapshotMessage?
          ==> 1 <= h.log[i].message.snapshot.snapshotId < h.nextSnapshotId)
    && (forall i, j :: 0 <= i < j < |h.log| && h.log[i].message.SnapshotMessage? && h.log[j].message.SnapshotMessage?
          ==> h.log[i].message.snapshot.snapshotId < h.log[j].message.snapshot.snapshotId)
  }

  ghost predicate CacheOk(h: State) {
    forall c, b :: b in Entries(h.cache, c) ==> SentTo(h.log, c, b)
  }

  ghost predicate AppliedOk(h: State, applied: Applied) {
    && (forall c, a :: a in AppliedBy(applied, c) ==> SentTo(h.log, c, a))
    && (forall c :: c in h.states && h.states[c].acked != 0 ==> HasApplied(applied, c, h.states[c].acked))
  }

  ghost predicate HasApplied(applied: Applied, client: ClientId, id: SnapshotId) {
    exists a :: a in AppliedBy(applied, client) && a.snapshotId == id
  }

  /** A delta names an earlier baseline its client has applied; a full snapshot names none. */
  ghost predicate DeltaOk(a: Attempt, applied: Applied) {
    a.message.SnapshotMessage? ==>
      if a.message.snapshot.deliveryKind == DeltaEligible
      then && 0 < a.message.snapshot.baselineId < a.message.snapshot.snapshotId
           && HasApplied(applied, a.peer, a.message.snapshot.baselineId)
      else a.message.snapshot.baselineId == 0
  }

  ghost predicate DeltasOk(h: State, applied: Applied) {
    forall i :: 0 <= i < |h.log| ==> DeltaOk(h.log[i], applied)
  }

  ghost predicate InterestOk(h: State) {
    && (forall c :: Alternates(h.log, c))
    && (forall c :: c in h.states ==>
          && Folded(h.log, c) == h.states[c].known
          && h.states[c].known == Ids(LastSent(h.log, c)))
    && (forall c :: c !in h.states ==> Folded(h.log, c) == {} && LastSent(h.log, c) == [])
  }

  ghost predicate CountersOk(h: State) {
    && h.stats.full + h.stats.delta == h.stats.snapshotsSent
    && h.stats.enter + h.stats.stay == h.stats.entitiesSent
    && h.stats.enter - h.stats.exit == TotalKnown(h.clients, h.states)
    && h.stats.planned == DeltaAttempts(h.log)
  }

  ghost predicate Inv(h: State, applied: Applied) {
    && WellFormed(h)
    && SnapshotIdsOk(h)
    && CacheOk(h)
    && AppliedOk(h, applied)
    && DeltasOk(h, applied)
    && InterestOk(h)
    && CountersOk(h)
  }

  /** What the server simulation guarantees about what it shows the host: entity ids are
      distinct, and its own events are never interest events. */
  ghost predicate ServerWorld(world: World) {
    && (forall c :: DistinctIds(world.Visible(c)))
    && (forall k :: 0 <= k < |world.events| ==> !world.events[k].EnteredInterest? && !world.events[k].LeftInterest?)
  }

  // --- reliable events do not touch snapshots ---

  /** From h to next only reliable events were tried; everything about snapshots is
      unchanged. */
  ghost predicate OnlyReliable(h: State, next: State) {
    && next.clients == h.clients && next.cache == h.cache && next.nextSnapshotId == h.nextSnapshotId
    && next.states.Keys == h.states.Keys
    && (forall c :: c in h.states ==> SameSnapshotView(h.states[c], next.states[c]))
    && h.log <= next.log
    && (forall i :: |h.log| <= i < |next.log| ==> next.log[i].message.EventMessage?)
    && next.stats == h.stats.(sent := next.stats.sent, resent := next.stats.resent)
  }

  predicate SameSnapshotView(a: ClientState, b: ClientState) {
    a.acked == b.acked && a.known == b.known && a.nextSendAt == b.nextSendAt
  }

  /** No attempt from position `from` on is an announcement to this client. */
  ghost predicate Silent(log: seq<Attempt>, from: nat, client: ClientId) {
    forall i :: from <= i < |log| ==> !Announces(log[i], client)
  }

  lemma SendIsReliable(h: State, oracle: Oracle, client: ClientId, event: NetworkEvent, now: Time, resend: bool)
    ensures var next := SendReliable(h, oracle, client, event, now, resend);
            && OnlyReliable(h, next)
            && next.log == h.log + [Attempt(client, EventMessage(event), now, oracle.accepts(|h.log|), resend)]
  {
  }

  lemma ReliableTransitive(a: State, b: State, c: State)
    requires OnlyReliable(a, b) && OnlyReliable(b, c)
    ensures OnlyReliable(a, c)
  {
    forall i | |a.log| <= i < |c.log|
      ensures c.log[i].message.EventMessage?
    {
      if i < |b.log| {
        assert c.log[i] == b.log[i];
      }
    }
  }

  lemma SilentTransitive(a: seq<Attempt>, b: seq<Attempt>, c: seq<Attempt>, client: ClientId)
    requires a <= b <= c && Silent(b, |a|, client) && Silent(c, |b|, client)
    ensures Silent(c, |a|, client)
  {
    forall i | |a| <= i < |c|
      ensures !Announces(c[i], client)
    {
      if i < |b| {
        assert c[i] == b[i];
      }
    }
  }

  lemma {:induction false} SendToClientsIsReliable(h: State, oracle: Oracle, clients: seq<ClientId>, n: nat, event: NetworkEvent, now: Time)
    requires n <= |clients|
    ensures OnlyReliable(h, SendToClients(h, oracle, clients, n, event, now))
    ensures !IsInterest(event.payload) ==>
              forall c :: Silent(SendToClients(h, oracle, clients, n, event, now).log, |h.log|, c)
  {
    if n > 0 {
      SendToClientsIsReliable(h, oracle, clients, n - 1, event, now);
      var before := SendToClients(h, oracle, clients, n - 1, event, now);
      SendIsReliable(before, oracle, clients[n - 1], event, now, false);
      var after := SendReliable(before, oracle, clients[n - 1], event, now, false);
      hide SendReliable;
      ReliableTransitive(h, before, after);
      if !IsInterest(event.payload) {
        forall c ensures Silent(after.log, |h.log|, c) {
          SilentTransitive(h.log, before.log, after.log, c);
        }
      }
    }
  }

  lemma BroadcastOneIsReliable(h: State, oracle: Oracle, world: World, event: DomainEvent, clients: seq<ClientId>, now: Time)
    ensures OnlyReliable(h, BroadcastOne(h, oracle, world, event, clients, now))
    ensures !event.EnteredInterest? && !event.LeftInterest? ==>
              forall c :: Silent(BroadcastOne(h, oracle, world, event, clients, now).log, |h.log|, c)
  {
    var numbered := h.(nextEventId := h.nextEventId + 1);
    match ToNetworkEvent(h.nextEventId, world.tick, world.time, event)
    case None =>
    case Some(e) =>
      SendToClientsIsReliable(numbered, oracle, clients, |clients|, e, now);
      ReliableTransitive(h, numbered, SendToClients(numbered, oracle, clients, |clients|, e, now));
  }

  lemma {:induction false} BroadcastIsReliable(h: State, oracle: Oracle, world: World, events: seq<DomainEvent>, n: nat, now: Time)
    requires n <= |events|
    requires forall k :: 0 <= k < |events| ==> !events[k].EnteredInterest? && !events[k].LeftInterest?
    ensures OnlyReliable(h, Broadcast(h, oracle, world, events, n, now))
    ensures forall c :: Silent(Broadcast(h, oracle, world, events, n, now).log, |h.log|, c)
  {
    if n > 0 {
      BroadcastIsReliable(h, oracle, world, events, n - 1, now);
      var before := Broadcast(h, oracle, world, events, n - 1, now);
      BroadcastOneIsReliable(before, oracle, world, events[n - 1], h.clients, now);
      var after := BroadcastOne(before, oracle, world, events[n - 1], h.clients, now);
      ReliableTransitive(h, before, after);
      hide BroadcastOne, Silent;
      forall c ensures Silent(after.log, |h.log|, c) {
        SilentTransitive(h.log, before.log, after.log, c);
      }
    }
  }

  lemma {:induction false} ResendListIsReliable(h: State, oracle: Oracle, client: ClientId, due: seq<NetworkEvent>, n: nat, now: Time)
    requires n <= |due|
    ensures OnlyReliable(h, ResendList(h, oracle, client, due, n, now))
    ensures forall c :: Silent(ResendList(h, oracle, client, due, n, now).log, |h.log|, c)
  {
    if n > 0 {
      ResendListIsReliable(h, oracle, client, due, n - 1, now);
      var before := ResendList(h, oracle, client, due, n - 1, now);
      SendIsReliable(before, oracle, client, due[n - 1], now, true);
      var after := SendReliable(before, oracle, client, due[n - 1], now, true);
      hide SendReliable;
      ReliableTransitive(h, before, after);
      forall c ensures Silent(after.log, |h.log|, c) {
        SilentTransitive(h.log, before.log, after.log, c);
      }
    }
  }

  lemma {:induction false} ResendIsReliable(h: State, oracle: Oracle, config: Config, walk: seq<ClientId>, n: nat, now: Time)
    requires n <= |walk|
    ensures OnlyReliable(h, Resend(h, oracle, config, walk, n, now))
    ensures forall c :: Silent(Resend(h, oracle, config, walk, n, now).log, |h.log|, c)
  {
    if n > 0 {
      ResendIsReliable(h, oracle, config, walk, n - 1, now);
      var before := Resend(h, oracle, config, walk, n - 1, now);
      var due := DueFor(before, oracle, config, walk[n - 1], now);
      hide DueFor;
      ResendListIsReliable(before, oracle, walk[n - 1], due, |due|, now);
      var after := ResendList(before, oracle, walk[n - 1], due, |due|, now);
      hide ResendList, Silent;
      ReliableTransitive(h, before, after);
      forall c ensures Silent(after.log, |h.log|, c) {
        SilentTransitive(h.log, before.log, after.log, c);
      }
    }
  }

  // --- what a silent reliable step keeps ---

  lemma {:induction false} SilentLog(log: seq<Attempt>, longer: seq<Attempt>, client: ClientId)
    requires log <= longer && Silent(longer, |log|, client)
    requires forall i :: |log| <= i < |longer| ==> longer[i].message.EventMessage?
    ensures Folded(longer, client) == Folded(log, client)
    ensures LastSent(longer, client) == LastSent(log, client)
    ensures Alternates(log, client) ==> Alternates(longer, client)
  {
    if |longer| > |log| {
      var front := longer[..|longer| - 1];
      SilentLog(log, front, client);
      if Alternates(log, client) {
        AlternatesSnoc(front, longer[|longer| - 1], client);
        assert longer == front + [longer[|longer| - 1]];
      }
    } else {
      assert log == longer;
    }
  }

  lemma AlternatesSnoc(log: seq<Attempt>, a: Attempt, client: ClientId)
    requires Alternates(log, client)
    requires Announces(a, client) && a.message.event.payload.EnteredDTO? ==> a.message.event.payload.entityId !in Folded(log, client)
    requires Announces(a, client) && a.message.event.payload.LeftDTO? ==> a.message.event.payload.entityId in Folded(log, client)
    ensures Alternates(log + [a], client)
  {
    var longer := log + [a];
    forall i | 0 <= i < |longer| && Announces(longer[i], client)
      ensures var known := Folded(longer[..i], client);
              var payload := longer[i].message.event.payload;
              && (payload.EnteredDTO? ==> payload.entityId !in known)
              && (payload.LeftDTO? ==> payload.entityId in known)
    {
      if i < |log| {
        assert longer[..i] == log[..i];
        assert longer[i] == log[i];
      } else {
        assert longer[..i] == log;
      }
    }
  }

  lemma {:induction false} EventsAddNoDeltas(log: seq<Attempt>, longer: seq<Attempt>)
    requires log <= longer
    requires forall i :: |log| <= i < |longer| ==> longer[i].message.EventMessage?
    ensures DeltaAttempts(longer) == DeltaAttempts(log)
  {
    if |longer| > |log| {
      EventsAddNoDeltas(log, longer[..|longer| - 1]);
    } else {
      assert log == longer;
    }
  }

  lemma SentStays(log: seq<Attempt>, longer: seq<Attempt>, client: ClientId, snapshot: Snapshot)
    requires log <= longer && SentTo(log, client, snapshot)
    ensures SentTo(longer, client, snapshot)
  {
    var i :| 0 <= i < |log| && log[i].peer == client && log[i].accepted && log[i].message == SnapshotMessage(snapshot);
    assert longer[i] == log[i];
  }

  lemma {:induction false} TotalKnownSame(clients: seq<ClientId>, states: map<ClientId, ClientState>, next: map<ClientId, ClientState>)
    requires states.Keys == next.Keys && forall c :: c in states ==> states[c].known == next[c].known
    ensures TotalKnown(clients, next) == TotalKnown(clients, states)
  {
    if clients != [] {
      TotalKnownSame(clients[..|clients| - 1], states, next);
    }
  }

  lemma ReliableKeepsIds(h: State, next: State)
    requires OnlyReliable(h, next) && SnapshotIdsOk(h)
    ensures SnapshotIdsOk(next)
  {
    assert forall i :: 0 <= i < |next.log| && next.log[i].message.SnapshotMessage? ==> i < |h.log| && next.log[i] == h.log[i];
  }

  lemma GrowingLogKeepsCache(h: State, next: State)
    requires CacheOk(h) && h.log <= next.log && next.cache == h.cache
    ensures CacheOk(next)
  {
    forall c, b | b in Entries(next.cache, c)
      ensures SentTo(next.log, c, b)
    {
      SentStays(h.log, next.log, c, b);
    }
  }

  lemma ReliableKeepsApplied(h: State, next: State, applied: Applied)
    requires OnlyReliable(h, next) && AppliedOk(h, applied) && DeltasOk(h, applied)
    ensures AppliedOk(next, applied) && DeltasOk(next, applied)
  {
    forall c, a | a in AppliedBy(applied, c)
      ensures SentTo(next.log, c, a)
    {
      SentStays(h.log, next.log, c, a);
    }
    forall i | 0 <= i < |next.log|
      ensures DeltaOk(next.log[i], applied)
    {
      if i < |h.log| {
        assert next.log[i] == h.log[i];
        assert DeltaOk(h.log[i], applied);
      }
    }
  }

  lemma SilentKeepsInterest(h: State, next: State)
    requires OnlyReliable(h, next) && InterestOk(h)
    requires forall c :: Silent(next.log, |h.log|, c)
    ensures InterestOk(next)
  {
    hide Alternates, Silent;
    forall c
      ensures Alternates(next.log, c)
      ensures Folded(next.log, c) == Folded(h.log, c) && LastSent(next.log, c) == LastSent(h.log, c)
    {
      assert Alternates(h.log, c);
      SilentLog(h.log, next.log, c);
    }
  }

  lemma ReliableKeepsCounters(h: State, next: State)
    requires OnlyReliable(h, next) && CountersOk(h)
    ensures CountersOk(next)
  {
    TotalKnownSame(h.clients, h.states, next.states);
    EventsAddNoDeltas(h.log, next.log);
  }

  lemma SilentReliableKeepsInv(h: State, next: State, applied: Applied)
    requires Inv(h, applied) && OnlyReliable(h, next)
    requires forall c :: Silent(next.log, |h.log|, c)
    ensures Inv(next, applied)
  {
    ReliableKeepsIds(h, next);
    GrowingLogKeepsCache(h, next);
    ReliableKeepsApplied(h, next, applied);
    SilentKeepsInterest(h, next);
    ReliableKeepsCounters(h, next);
  }

  // --- announcing an interest change ---

  function SetOf(ids: seq<EntityId>): set<EntityId> {
    set id | id in ids
  }

  /** The folded set after the first n announcements of a frame. */
  function FoldedAfter(known: set<EntityId>, frame: Interest.Frame, n: nat): set<EntityId>
    requires n <= |frame.entered| + |frame.exited|
  {
    if n <= |frame.entered| then known + SetOf(frame.entered[..n])
    else known + SetOf(frame.entered) - SetOf(frame.exited[..n - |frame.entered|])
  }

  ghost predicate FrameOf(frame: Interest.Frame, known: set<EntityId>, next: set<EntityId>) {
    && Enumerates(frame.entered, next - known)
    && Enumerates(frame.exited, known - next)
  }

  lemma AnnounceOne(h: State, oracle: Oracle, world: World, client: ClientId, event: DomainEvent, now: Time)
    requires event.EnteredInterest? || event.LeftInterest?
    requires event.observer == client
    ensures var next := BroadcastOne(h, oracle, world, event, [client], now);
            var payload := if event.EnteredInterest? then EnteredDTO(event.entityId, client) else LeftDTO(event.entityId, client);
            next.log == h.log + [Attempt(client, EventMessage(NetworkEvent(h.nextEventId, world.tick, world.time, payload)),
                                         now, oracle.accepts(|h.log|), false)]
  {
    var numbered := h.(nextEventId := h.nextEventId + 1);
    var e := ToNetworkEvent(h.nextEventId, world.tick, world.time, event).value;
    assert SendToClients(numbered, oracle, [client], 0, e, now) == numbered;
    assert BroadcastOne(h, oracle, world, event, [client], now) == SendToClients(numbered, oracle, [client], 1, e, now);
    assert SendToClients(numbered, oracle, [client], 1, e, now) == SendReliable(numbered, oracle, client, e, now, false);
  }

  lemma FoldedSnoc(log: seq<Attempt>, a: Attempt, client: ClientId)
    ensures Folded(log + [a], client)
         == if Announces(a, client) then Announced(Folded(log, client), a.message.event.payload) else Folded(log, client)
    ensures a.message.EventMessage? ==> LastSent(log + [a], client) == LastSent(log, client)
  {
    assert (log + [a])[..|log|] == log;
  }

  lemma FoldedStep(known: set<EntityId>, next: set<EntityId>, frame: Interest.Frame, n: nat)
    requires FrameOf(frame, known, next)
    requires n < |frame.entered| + |frame.exited|
    ensures n < |frame.entered| ==>
              && frame.entered[n] !in FoldedAfter(known, frame, n)
              && FoldedAfter(known, frame, n + 1) == FoldedAfter(known, frame, n) + {frame.entered[n]}
    ensures n >= |frame.entered| ==>
              && frame.exited[n - |frame.entered|] in FoldedAfter(known, frame, n)
              && FoldedAfter(known, frame, n + 1) == FoldedAfter(known, frame, n) - {frame.exited[n - |frame.entered|]}
  {
    if n < |frame.entered| {
      assert frame.entered[n] in frame.entered;
      assert frame.entered[..n + 1] == frame.entered[..n] + [frame.entered[n]];
    } else {
      var m := n - |frame.entered|;
      assert frame.entered[..|frame.entered|] == frame.entered;
      assert frame.exited[m] in frame.exited;
      assert frame.exited[..m + 1] == frame.exited[..m] + [frame.exited[m]];
      assert frame.exited[m] !in frame.exited[..m];
    }
  }

  lemma FoldedAll(known: set<EntityId>, next: set<EntityId>, frame: Interest.Frame)
    requires FrameOf(frame, known, next)
    ensures FoldedAfter(known, frame, |frame.entered| + |frame.exited|) == next
    ensures FoldedAfter(known, frame, 0) == known
  {
    assert frame.entered[..|frame.entered|] == frame.entered;
    assert frame.exited[..|frame.exited|] == frame.exited;
    assert forall id :: id in SetOf(frame.entered) <==> id in next - known;
    assert forall id :: id in SetOf(frame.exited) <==> id in known - next;
    assert known + SetOf(frame.entered) - SetOf(frame.exited) == next;
  }

  /** State of affairs after the first n announcements of a frame. */
  ghost predicate Announcing(h: State, after: State, client: ClientId, known: set<EntityId>, frame: Interest.Frame, n: nat)
    requires n <= |frame.entered| + |frame.exited|
  {
    && OnlyReliable(h, after)
    && Folded(after.log, client) == FoldedAfter(known, frame, n)
    && Alternates(after.log, client)
    && (forall c :: c != client ==> Silent(after.log, |h.log|, c))
  }

  lemma AnnounceStep(h: State, before: State, oracle: Oracle, world: World, client: ClientId, frame: Interest.Frame, known: set<EntityId>, next: set<EntityId>, n: nat, now: Time)
    requires FrameOf(frame, known, next) && n < |InterestEvents(frame, client)|
    requires Announcing(h, before, client, known, frame, n)
    ensures Announcing(h, BroadcastOne(before, oracle, world, InterestEvents(frame, client)[n], [client], now), client, known, frame, n + 1)
  {
    var event := InterestEvents(frame, client)[n];
    FoldedStep(known, next, frame, n);
    AnnounceOne(before, oracle, world, client, event, now);
    BroadcastOneIsReliable(before, oracle, world, event, [client], now);
    var after := BroadcastOne(before, oracle, world, event, [client], now);
    hide BroadcastOne, FrameOf, FoldedAfter, Folded, Alternates, Silent;
    ReliableTransitive(h, before, after);
    var a := after.log[|before.log|];
    FoldedSnoc(before.log, a, client);
    AlternatesSnoc(before.log, a, client);
    forall c | c != client ensures Silent(after.log, |h.log|, c) {
      OneSilent(before.log, a, client, c);
      SilentTransitive(h.log, before.log, after.log, c);
    }
  }

  /** The announcements of one frame, in order: each enters an unknown or leaves a known
      entity of this client, and no other client hears of it. */
  lemma {:induction false} AnnounceFrame(h: State, oracle: Oracle, world: World, client: ClientId, frame: Interest.Frame, known: set<EntityId>, next: set<EntityId>, n: nat, now: Time)
    requires FrameOf(frame, known, next)
    requires n <= |InterestEvents(frame, client)|
    requires Folded(h.log, client) == known && Alternates(h.log, client)
    ensures Announcing(h, SendInterest(h, oracle, world, client, InterestEvents(frame, client), n, now), client, known, frame, n)
    decreases n
  {
    if n == 0 {
      FoldedAll(known, next, frame);
    } else {
      hide Announcing, FrameOf;
      AnnounceFrame(h, oracle, world, client, frame, known, next, n - 1, now);
      var events := InterestEvents(frame, client);
      AnnounceStep(h, SendInterest(h, oracle, world, client, events, n - 1, now), oracle, world, client, frame, known, next, n - 1, now);
    }
  }

  lemma OneSilent(log: seq<Attempt>, a: Attempt, client: ClientId, other: ClientId)
    requires a.peer == client && other != client
    ensures Silent(log + [a], |log|, other)
  {
  }

  // --- one client's snapshot turn ---

  /** What planning makes of the world for one client: a fresh id, the decided baseline,
      and a selection of the visible entities. */
  lemma PlannedSnapshotFacts(h: State, config: Config, world: World, client: ClientId)
    requires DistinctIds(world.Visible(client))
    ensures var planned := PlannedFor(h, config, world, client);
            var decision := DecisionFor(h, client);
            && planned.snapshot.snapshotId == h.nextSnapshotId
            && planned.snapshot.baselineId == decision.effective
            && planned.snapshot.deliveryKind == decision.deliveryKind
            && planned.stats.output == |planned.snapshot.entities|
            && DistinctIds(planned.snapshot.entities)
  {
    Planner.PlanSelects(config.planner, client, world.Visible(client));
  }

  /** A delta is decided only for a baseline that is acknowledged and still cached. */
  lemma DecisionFacts(h: State, client: ClientId)
    ensures var decision := DecisionFor(h, client);
            if decision.deliveryKind == DeltaEligible
            then && client in h.states && h.states[client].acked != 0
                 && decision.effective == h.states[client].acked
                 && Lookup(h.cache, client, decision.effective).Some?
                 && Lookup(h.cache, client, decision.effective).value in Entries(h.cache, client)
                 && Lookup(h.cache, client, decision.effective).value.snapshotId == decision.effective
            else decision.effective == 0
  {
  }

  lemma TryKeepsIds(h: State, oracle: Oracle, planned: Planner.Planned, client: ClientId, now: Time)
    requires SnapshotIdsOk(h) && planned.snapshot.snapshotId == h.nextSnapshotId
    ensures SnapshotIdsOk(TrySnapshot(h, oracle, planned, client, now))
  {
  }

  /** Whatever a client has applied carries an id that was spent before. */
  lemma AppliedIsOlder(h: State, applied: Applied, client: ClientId, id: SnapshotId)
    requires SnapshotIdsOk(h) && AppliedOk(h, applied) && HasApplied(applied, client, id)
    ensures id < h.nextSnapshotId
  {
    var a :| a in AppliedBy(applied, client) && a.snapshotId == id;
    assert SentTo(h.log, client, a);
  }

  lemma TryKeepsApplied(h: State, oracle: Oracle, config: Config, world: World, client: ClientId, now: Time, applied: Applied)
    requires SnapshotIdsOk(h) && AppliedOk(h, applied) && DeltasOk(h, applied) && DistinctIds(world.Visible(client))
    ensures var tried := TrySnapshot(h, oracle, PlannedFor(h, config, world, client), client, now);
            AppliedOk(tried, applied) && DeltasOk(tried, applied)
  {
    var planned := PlannedFor(h, config, world, client);
    var tried := TrySnapshot(h, oracle, planned, client, now);
    PlannedSnapshotFacts(h, config, world, client);
    DecisionFacts(h, client);
    forall c, a | a in AppliedBy(applied, c)
      ensures SentTo(tried.log, c, a)
    {
      SentStays(h.log, tried.log, c, a);
    }
    var attempt := tried.log[|h.log|];
    if planned.snapshot.deliveryKind == DeltaEligible {
      AppliedIsOlder(h, applied, client, planned.snapshot.baselineId);
    }
    assert DeltaOk(attempt, applied);
    hide PlannedFor, DecisionFor;
    forall i | 0 <= i < |tried.log|
      ensures DeltaOk(tried.log[i], applied)
    {
      if i < |h.log| {
        assert tried.log[i] == h.log[i];
        assert DeltaOk(h.log[i], applied);
      }
    }
  }

  lemma TryKeepsPlannedCount(h: State, oracle: Oracle, config: Config, world: World, client: ClientId, now: Time)
    requires DistinctIds(world.Visible(client)) && h.stats.planned == DeltaAttempts(h.log)
    ensures var tried := TrySnapshot(h, oracle, PlannedFor(h, config, world, client), client, now);
            && tried.stats.planned == DeltaAttempts(tried.log)
            && tried.stats == h.stats.(planned := tried.stats.planned, added := tried.stats.added,
                                       changed := tried.stats.changed, removed := tried.stats.removed, same := tried.stats.same)
  {
    var planned := PlannedFor(h, config, world, client);
    var tried := TrySnapshot(h, oracle, planned, client, now);
    PlannedSnapshotFacts(h, config, world, client);
    DecisionFacts(h, client);
    hide PlannedFor, DecisionFor;
    assert tried.log[..|h.log|] == h.log;
  }

  lemma RejectedKeepsInterest(h: State, oracle: Oracle, planned: Planner.Planned, client: ClientId, now: Time)
    requires InterestOk(h) && !oracle.accepts(|h.log|)
    ensures InterestOk(TrySnapshot(h, oracle, planned, client, now))
  {
    var tried := TrySnapshot(h, oracle, planned, client, now);
    var a := tried.log[|h.log|];
    assert tried.log == h.log + [a];
    hide Alternates;
    forall c
      ensures Alternates(tried.log, c)
      ensures Folded(tried.log, c) == Folded(h.log, c) && LastSent(tried.log, c) == LastSent(h.log, c)
    {
      assert Alternates(h.log, c);
      AlternatesSnoc(h.log, a, c);
      assert tried.log[..|h.log|] == h.log;
    }
  }

  lemma {:induction false} TotalKnownUpdate(clients: seq<ClientId>, states: map<ClientId, ClientState>, client: ClientId, s: ClientState)
    requires Distinct(clients) && client in states
    ensures TotalKnown(clients, states[client := s])
         == TotalKnown(clients, states) + (if client in clients then |s.known| - |states[client].known| else 0)
  {
    if clients != [] {
      var front := clients[..|clients| - 1];
      assert forall c :: c in clients <==> c in front || c == clients[|clients| - 1];
      TotalKnownUpdate(front, states, client, s);
    }
  }

  lemma RejectedKeepsInv(h: State, oracle: Oracle, config: Config, world: World, client: ClientId, now: Time, applied: Applied)
    requires Inv(h, applied) && DistinctIds(world.Visible(client)) && !oracle.accepts(|h.log|)
    ensures Inv(TrySnapshot(h, oracle, PlannedFor(h, config, world, client), client, now), applied)
  {
    var planned := PlannedFor(h, config, world, client);
    PlannedSnapshotFacts(h, config, world, client);
    TryKeepsIds(h, oracle, planned, client, now);
    TryKeepsApplied(h, oracle, config, world, client, now, applied);
    TryKeepsPlannedCount(h, oracle, config, world, client, now);
    RejectedKeepsInterest(h, oracle, planned, client, now);
    hide PlannedFor, InterestOk, DeltasOk, AppliedOk, SnapshotIdsOk;
    GrowingLogKeepsCache(h, TrySnapshot(h, oracle, planned, client, now));
  }

  /** After the known set moved but before the announcements. */
  lemma MovedFacts(h: State, oracle: Oracle, planned: Planner.Planned, client: ClientId, now: Time)
    requires WellFormed(h) && client in h.states && ValidOrder(oracle.order)
    requires DistinctIds(planned.snapshot.entities)
    requires h.stats.enter + h.stats.stay == h.stats.entitiesSent
    requires h.stats.enter - h.stats.exit == TotalKnown(h.clients, h.states)
    ensures var tried := TrySnapshot(h, oracle, planned, client, now);
            var frame := InterestFrame(tried, oracle, planned.snapshot, client);
            var moved := MoveInterest(tried, frame, planned.snapshot, client);
            && FrameOf(frame, h.states[client].known, Ids(planned.snapshot.entities))
            && moved.stats.enter + moved.stats.stay == moved.stats.entitiesSent + |planned.snapshot.entities|
            && moved.stats.enter - moved.stats.exit == TotalKnown(moved.clients, moved.states)
  {
    var tried := TrySnapshot(h, oracle, planned, client, now);
    var known := h.states[client].known;
    var walk := oracle.order(|tried.log|, client, known);
    assert Enumerates(walk, known);
    Interest.FrameIsDifference(known, planned.snapshot.entities, walk);
    Interest.FrameSizes(known, planned.snapshot.entities, walk);
    TotalKnownUpdate(h.clients, h.states, client, h.states[client].(known := Ids(planned.snapshot.entities)));
  }

  lemma SnapshotSendFolds(log: seq<Attempt>, a: Attempt, c: ClientId)
    requires a.message.SnapshotMessage? && a.accepted && Alternates(log, c)
    ensures Folded(log + [a], c) == Folded(log, c) && Alternates(log + [a], c)
    ensures LastSent(log + [a], c) == if c == a.peer then a.message.snapshot.entities else LastSent(log, c)
  {
    assert (log + [a])[..|log|] == log;
    AlternatesSnoc(log, a, c);
  }

  /** An accepted snapshot with its announcements: the folded and known sets of this
      client become the ids just sent, other clients' stay. */
  lemma AcceptedKeepsInterest(h: State, moved: State, shifted: State, client: ClientId, snapshot: Snapshot, frame: Interest.Frame, a: Attempt)
    requires InterestOk(h) && client in h.states
    requires a.peer == client && a.accepted && a.message == SnapshotMessage(snapshot)
    requires FrameOf(frame, h.states[client].known, Ids(snapshot.entities))
    requires moved.log == h.log + [a]
    requires moved.states == h.states[client := h.states[client].(known := Ids(snapshot.entities))]
    requires Announcing(moved, shifted, client, h.states[client].known, frame, |frame.entered| + |frame.exited|)
    ensures InterestOk(shifted)
  {
    FoldedAll(h.states[client].known, Ids(snapshot.entities), frame);
    forall c
      ensures Alternates(shifted.log, c)
      ensures Folded(shifted.log, c) == if c == client then Ids(snapshot.entities) else Folded(h.log, c)
      ensures LastSent(shifted.log, c) == if c == client then snapshot.entities else LastSent(h.log, c)
    {
      hide FrameOf, FoldedAfter, Alternates, Silent;
      assert Alternates(h.log, c);
      SnapshotSendFolds(h.log, a, c);
      LastSentReliable(moved.log, shifted.log, c);
      if c != client {
        SilentLog(moved.log, shifted.log, c);
      }
    }
  }

  lemma {:induction false} LastSentReliable(log: seq<Attempt>, longer: seq<Attempt>, client: ClientId)
    requires log <= longer
    requires forall i :: |log| <= i < |longer| ==> longer[i].message.EventMessage?
    ensures LastSent(longer, client) == LastSent(log, client)
  {
    if |longer| > |log| {
      LastSentReliable(log, longer[..|longer| - 1], client);
    } else {
      assert log == longer;
    }
  }

  lemma RecordKeepsCache(shifted: State, config: Config, planned: Planner.Planned, decision: Decision, client: ClientId)
    requires CacheOk(shifted) && SentTo(shifted.log, client, planned.snapshot)
    ensures CacheOk(RecordSnapshot(shifted, config, planned, decision, client))
  {
    var done := RecordSnapshot(shifted, config, planned, decision, client);
    forall c, b | b in Entries(done.cache, c)
      ensures SentTo(done.log, c, b)
    {
      if c == client {
        assert b in Entries(shifted.cache, client) + [planned.snapshot];
        assert b in Entries(shifted.cache, client) || b == planned.snapshot;
      }
    }
  }

  /** Recording and rescheduling change only the cache, counters and the schedule. */
  ghost predicate Records(shifted: State, done: State, output: nat) {
    && done.clients == shifted.clients && done.log == shifted.log && done.nextSnapshotId == shifted.nextSnapshotId
    && done.states.Keys == shifted.states.Keys
    && (forall c :: c in shifted.states ==>
          done.states[c].acked == shifted.states[c].acked && done.states[c].known == shifted.states[c].known)
    && done.stats.full + done.stats.delta == shifted.stats.full + shifted.stats.delta + 1
    && done.stats.snapshotsSent == shifted.stats.snapshotsSent + 1
    && done.stats.entitiesSent == shifted.stats.entitiesSent + output
    && done.stats.enter == shifted.stats.enter && done.stats.stay == shifted.stats.stay
    && done.stats.exit == shifted.stats.exit && done.stats.planned == shifted.stats.planned
  }

  lemma RecordsKeepRest(shifted: State, done: State, output: nat, applied: Applied)
    requires Records(shifted, done, output)
    requires WellFormed(shifted) && SnapshotIdsOk(shifted) && AppliedOk(shifted, applied)
    requires DeltasOk(shifted, applied) && InterestOk(shifted)
    ensures WellFormed(done) && SnapshotIdsOk(done) && AppliedOk(done, applied)
    ensures DeltasOk(done, applied) && InterestOk(done)
    ensures TotalKnown(done.clients, done.states) == TotalKnown(shifted.clients, shifted.states)
  {
    TotalKnownSame(shifted.clients, shifted.states, done.states);
    assert DeltasOk(done, applied) by {
      forall i | 0 <= i < |done.log| ensures DeltaOk(done.log[i], applied) {
        assert DeltaOk(shifted.log[i], applied);
      }
    }
    hide DeltaOk, HasApplied, Alternates, SentTo;
    assert InterestOk(done) by {
      forall c ensures Alternates(done.log, c) {
        assert Alternates(shifted.log, c);
      }
    }
  }

  lemma AcceptedKeepsInv(h: State, oracle: Oracle, config: Config, world: World, client: ClientId, now: Time, applied: Applied)
    requires Inv(h, applied) && client in h.states && ValidOrder(oracle.order)
    requires DistinctIds(world.Visible(client)) && oracle.accepts(|h.log|)
    ensures var planned := PlannedFor(h, config, world, client);
            var shifted := ShiftInterest(TrySnapshot(h, oracle, planned, client, now), oracle, world, planned.snapshot, client, now);
            var done := MarkSent(RecordSnapshot(shifted, config, planned, DecisionFor(h, client), client), config, client, now);
            && Inv(done, applied)
            && done.clients == h.clients && done.states.Keys == h.states.Keys
  {
    var planned := PlannedFor(h, config, world, client);
    var snapshot := planned.snapshot;
    var tried := TrySnapshot(h, oracle, planned, client, now);
    PlannedSnapshotFacts(h, config, world, client);
    hide *;
    InvParts(h, applied);
    TrySnapshotFacts(h, oracle, planned, client, now);
    TryKeepsIds(h, oracle, planned, client, now);
    TryKeepsApplied(h, oracle, config, world, client, now, applied);
    TryKeepsPlannedCount(h, oracle, config, world, client, now);
    MovedFacts(h, oracle, planned, client, now);
    var frame := InterestFrame(tried, oracle, snapshot, client);
    var moved := MoveInterest(tried, frame, snapshot, client);
    var shifted := ShiftInterest(tried, oracle, world, snapshot, client, now);
    ShiftUnfold(tried, oracle, world, snapshot, client, now);
    MovedIsReady(h, moved, oracle, planned, client, frame, now, applied);
    AnnounceMoved(h, moved, shifted, oracle, world, planned, client, frame, now);
    ReadyAfterAnnouncing(moved, shifted, client, snapshot, applied);
    AcceptedKeys(moved, shifted);
    RecordedKeepsInv(shifted, config, planned, DecisionFor(h, client), client, now, applied);
  }

  lemma InvParts(h: State, applied: Applied)
    requires Inv(h, applied)
    ensures WellFormed(h) && SnapshotIdsOk(h) && CacheOk(h) && AppliedOk(h, applied) && DeltasOk(h, applied)
    ensures InterestOk(h) && CountersOk(h)
    ensures h.stats.enter + h.stats.stay == h.stats.entitiesSent
    ensures h.stats.enter - h.stats.exit == TotalKnown(h.clients, h.states)
    ensures h.stats.planned == DeltaAttempts(h.log)
  {
  }

  lemma TrySnapshotFacts(h: State, oracle: Oracle, planned: Planner.Planned, client: ClientId, now: Time)
    ensures var tried := TrySnapshot(h, oracle, planned, client, now);
            && tried.clients == h.clients && tried.states == h.states
            && tried.log == h.log + [Attempt(client, SnapshotMessage(planned.snapshot), now, oracle.accepts(|h.log|), false)]
  {
  }

  lemma ShiftUnfold(tried: State, oracle: Oracle, world: World, snapshot: Snapshot, client: ClientId, now: Time)
    requires client in tried.states
    ensures var frame := InterestFrame(tried, oracle, snapshot, client);
            var moved := MoveInterest(tried, frame, snapshot, client);
            var events := InterestEvents(frame, client);
            && ShiftInterest(tried, oracle, world, snapshot, client, now)
               == SendInterest(moved, oracle, world, client, events, |events|, now)
            && moved.clients == tried.clients && moved.log == tried.log
            && moved.states == tried.states[client := tried.states[client].(known := Ids(snapshot.entities))]
            && moved.states.Keys == tried.states.Keys
  {
  }

  lemma AcceptedKeys(moved: State, shifted: State)
    requires OnlyReliable(moved, shifted)
    ensures shifted.clients == moved.clients && shifted.states.Keys == moved.states.Keys
  {
  }

  lemma AnnounceMoved(h: State, moved: State, shifted: State, oracle: Oracle, world: World, planned: Planner.Planned, client: ClientId, frame: Interest.Frame, now: Time)
    requires InterestOk(h) && client in h.states && oracle.accepts(|h.log|)
    requires FrameOf(frame, h.states[client].known, Ids(planned.snapshot.entities))
    requires moved.log == h.log + [Attempt(client, SnapshotMessage(planned.snapshot), now, true, false)]
    requires moved.states == h.states[client := h.states[client].(known := Ids(planned.snapshot.entities))]
    requires shifted == SendInterest(moved, oracle, world, client, InterestEvents(frame, client), |InterestEvents(frame, client)|, now)
    ensures OnlyReliable(moved, shifted) && InterestOk(shifted)
  {
    var a := Attempt(client, SnapshotMessage(planned.snapshot), now, true, false);
    var known := h.states[client].known;
    assert Alternates(h.log, client);
    SnapshotSendFolds(h.log, a, client);
    AnnounceFrame(moved, oracle, world, client, frame, known, Ids(planned.snapshot.entities), |InterestEvents(frame, client)|, now);
    hide InterestOk, Alternates, SendInterest, FrameOf;
    AcceptedKeepsInterest(h, moved, shifted, client, planned.snapshot, frame, a);
  }

  /** Everything but the interest clauses, after the announcements and before recording. */
  ghost predicate ReadyToRecord(shifted: State, client: ClientId, snapshot: Snapshot, applied: Applied) {
    && WellFormed(shifted) && SnapshotIdsOk(shifted) && CacheOk(shifted)
    && AppliedOk(shifted, applied) && DeltasOk(shifted, applied)
    && SentTo(shifted.log, client, snapshot)
    && shifted.stats.full + shifted.stats.delta == shifted.stats.snapshotsSent
    && shifted.stats.enter + shifted.stats.stay == shifted.stats.entitiesSent + |snapshot.entities|
    && shifted.stats.enter - shifted.stats.exit == TotalKnown(shifted.clients, shifted.states)
    && shifted.stats.planned == DeltaAttempts(shifted.log)
  }

  lemma ReadyAfterAnnouncing(moved: State, shifted: State, client: ClientId, snapshot: Snapshot, applied: Applied)
    requires ReadyToRecord(moved, client, snapshot, applied) && OnlyReliable(moved, shifted)
    ensures ReadyToRecord(shifted, client, snapshot, applied)
  {
    SentStays(moved.log, shifted.log, client, snapshot);
    GrowingLogKeepsCache(moved, shifted);
    ReliableKeepsIds(moved, shifted);
    ReliableKeepsApplied(moved, shifted, applied);
    TotalKnownSame(moved.clients, moved.states, shifted.states);
    EventsAddNoDeltas(moved.log, shifted.log);
  }

  lemma MovedIsReady(h: State, moved: State, oracle: Oracle, planned: Planner.Planned, client: ClientId, frame: Interest.Frame, now: Time, applied: Applied)
    requires WellFormed(h) && CacheOk(h) && CountersOk(h) && client in h.states && oracle.accepts(|h.log|)
    requires var tried := TrySnapshot(h, oracle, planned, client, now);
             && moved == MoveInterest(tried, frame, planned.snapshot, client)
             && SnapshotIdsOk(tried) && AppliedOk(tried, applied) && DeltasOk(tried, applied)
             && tried.stats.planned == DeltaAttempts(tried.log)
             && tried.stats == h.stats.(planned := tried.stats.planned, added := tried.stats.added,
                                        changed := tried.stats.changed, removed := tried.stats.removed, same := tried.stats.same)
    requires moved.stats.enter + moved.stats.stay == moved.stats.entitiesSent + |planned.snapshot.entities|
    requires moved.stats.enter - moved.stats.exit == TotalKnown(moved.clients, moved.states)
    ensures ReadyToRecord(moved, client, planned.snapshot, applied)
  {
    var tried := TrySnapshot(h, oracle, planned, client, now);
    assert SentTo(moved.log, client, planned.snapshot) by {
      assert moved.log[|h.log|].message == SnapshotMessage(planned.snapshot);
    }
    hide SentTo;
    MovedKeepsRest(tried, moved, client, applied);
    hide SnapshotIdsOk, AppliedOk, DeltasOk, DeltaAttempts, TotalKnown;
    GrowingLogKeepsCache(h, moved);
  }

  lemma RecordedKeepsInv(shifted: State, config: Config, planned: Planner.Planned, decision: Decision, client: ClientId, now: Time, applied: Applied)
    requires ReadyToRecord(shifted, client, planned.snapshot, applied) && InterestOk(shifted)
    requires client in shifted.states && planned.stats.output == |planned.snapshot.entities|
    ensures var done := MarkSent(RecordSnapshot(shifted, config, planned, decision, client), config, client, now);
            && Inv(done, applied)
            && done.clients == shifted.clients && done.states.Keys == shifted.states.Keys
  {
    var recorded := RecordSnapshot(shifted, config, planned, decision, client);
    var done := MarkSent(recorded, config, client, now);
    RecordKeepsCache(shifted, config, planned, decision, client);
    hide SnapshotIdsOk, AppliedOk, DeltasOk, InterestOk, CacheOk, DeltaAttempts, TotalKnown, SentTo;
    assert Records(shifted, done, planned.stats.output);
    RecordsKeepRest(shifted, done, planned.stats.output, applied);
    CacheOkSameLog(recorded, done);
  }

  lemma MovedKeepsRest(tried: State, moved: State, client: ClientId, applied: Applied)
    requires SnapshotIdsOk(tried) && AppliedOk(tried, applied) && DeltasOk(tried, applied)
    requires client in tried.states && client in moved.states && moved.log == tried.log && moved.nextSnapshotId == tried.nextSnapshotId
    requires moved.states == tried.states[client := moved.states[client]]
    requires moved.states[client].acked == tried.states[client].acked
    ensures SnapshotIdsOk(moved) && AppliedOk(moved, applied) && DeltasOk(moved, applied)
  {
    assert DeltasOk(moved, applied) by {
      forall i | 0 <= i < |moved.log| ensures DeltaOk(moved.log[i], applied) {
        assert DeltaOk(tried.log[i], applied);
      }
    }
  }

  lemma CacheOkSameLog(recorded: State, done: State)
    requires CacheOk(recorded) && done.log == recorded.log && done.cache == recorded.cache
    ensures CacheOk(done)
  {
  }

  lemma SkippedKeepsInv(h: State, applied: Applied)
    requires Inv(h, applied)
    ensures Inv(h.(stats := h.stats.(skipped := h.stats.skipped + 1)), applied)
  {
    var next := h.(stats := h.stats.(skipped := h.stats.skipped + 1));
    assert DeltasOk(next, applied) by {
      forall i | 0 <= i < |next.log| ensures DeltaOk(next.log[i], applied) {
        assert DeltaOk(h.log[i], applied);
      }
    }
    hide DeltasOk, SentTo, HasApplied, Alternates;
    assert InterestOk(next) by {
      forall c ensures Alternates(next.log, c) {
        assert Alternates(h.log, c);
      }
    }
  }

  lemma SnapshotTurnKeepsInv(h: State, oracle: Oracle, config: Config, world: World, client: ClientId, now: Time, applied: Applied)
    requires Inv(h, applied) && client in h.states && ValidOrder(oracle.order)
    requires DistinctIds(world.Visible(client))
    ensures var next := SnapshotTurn(h, oracle, config, world, client, now);
            && Inv(next, applied)
            && next.clients == h.clients && next.states.Keys == h.states.Keys
  {
    hide Inv, PlannedFor, ShiftInterest, RecordSnapshot, MarkSent, DecisionFor;
    if now < h.states[client].nextSendAt {
      SkippedKeepsInv(h, applied);
    } else if oracle.accepts(|h.log|) {
      hide TrySnapshot;
      AcceptedKeepsInv(h, oracle, config, world, client, now, applied);
    } else {
      RejectedKeepsInv(h, oracle, config, world, client, now, applied);
    }
  }

  /** The invariant, with the same clients as before. */
  ghost predicate StillInv(h: State, next: State, applied: Applied) {
    && Inv(next, applied)
    && next.clients == h.clients && next.states.Keys == h.states.Keys
  }

  lemma AtFirst(h: State, applied: Applied)
    requires Inv(h, applied)
    ensures StillInv(h, h, applied)
  {
  }

  lemma OneMoreTurn(h: State, before: State, oracle: Oracle, config: Config, world: World, k: nat, now: Time, applied: Applied)
    requires WellFormed(h) && k < |h.clients| && StillInv(h, before, applied)
    requires ValidOrder(oracle.order) && ServerWorld(world)
    ensures StillInv(h, SnapshotTurn(before, oracle, config, world, h.clients[k], now), applied)
  {
    assert h.clients[k] in h.clients;
    SnapshotTurnKeepsInv(before, oracle, config, world, h.clients[k], now, applied);
  }

  lemma SnapshotsUnfold(h: State, oracle: Oracle, config: Config, world: World, n: nat, now: Time)
    requires n <= |h.clients|
    ensures Snapshots(h, oracle, config, world, n, now)
         == if n == 0 then h
            else SnapshotTurn(Snapshots(h, oracle, config, world, n - 1, now), oracle, config, world, h.clients[n - 1], now)
  {
    hide SnapshotTurn;
  }

  lemma {:induction false} SnapshotsKeepInv(h: State, oracle: Oracle, config: Config, world: World, n: nat, now: Time, applied: Applied)
    requires Inv(h, applied) && ValidOrder(oracle.order) && ServerWorld(world) && n <= |h.clients|
    ensures StillInv(h, Snapshots(h, oracle, config, world, n, now), applied)
  {
    hide *;
    SnapshotsUnfold(h, oracle, config, world, n, now);
    if n == 0 {
      AtFirst(h, applied);
    } else {
      InvWellFormed(h, applied);
      SnapshotsKeepInv(h, oracle, config, world, n - 1, now, applied);
      OneMoreTurn(h, Snapshots(h, oracle, config, world, n - 1, now), oracle, config, world, n - 1, now, applied);
    }
  }

  lemma InvWellFormed(h: State, applied: Applied)
    requires Inv(h, applied)
    ensures WellFormed(h)
  {
  }

  /** A whole tick keeps the snapshot and interest invariant. */
  lemma TickKeepsInv(h: State, oracle: Oracle, config: Config, world: World, now: Time, applied: Applied)
    requires Inv(h, applied) && ValidOrder(oracle.order) && ServerWorld(world)
    ensures Inv(Tick(h, oracle, config, world, now), applied)
  {
    hide Inv;
    SnapshotsKeepInv(h, oracle, config, world, |h.clients|, now, applied);
    var snapshotted := Snapshots(h, oracle, config, world, |h.clients|, now);
    BroadcastIsReliable(snapshotted, oracle, world, world.events, |world.events|, now);
    var told := Broadcast(snapshotted, oracle, world, world.events, |world.events|, now);
    SilentReliableKeepsInv(snapshotted, told, applied);
    var walk := oracle.order(|told.log|, 0, told.states.Keys);
    ResendIsReliable(told, oracle, config, walk, |walk|, now);
    hide Resend, Broadcast, Snapshots, OnlyReliable, Silent;
    SilentReliableKeepsInv(told, Resend(told, oracle, config, walk, |walk|, now), applied);
  }

  // --- messages from clients ---

  lemma InitialInv()
    ensures Inv(INITIAL, map[])
  {
    var h := INITIAL;
    assert h.log == [] && h.clients == [] && h.cache == map[] && h.states == map[];
    EmptyInv(h);
  }

  lemma EmptyInv(h: State)
    requires h.log == [] && h.clients == [] && h.cache == map[] && h.states == map[]
    requires h.nextSnapshotId == 1 && h.stats == NO_STATS
    ensures Inv(h, map[])
  {
  }

  /** A step that changes neither log, cache nor snapshot counters, and no known set. */
  lemma QuietStepKeepsInv(h: State, next: State, applied: Applied)
    requires Inv(h, applied) && WellFormed(next)
    requires next.log == h.log && next.cache == h.cache && next.nextSnapshotId == h.nextSnapshotId
    requires next.stats == h.stats.(snapshotAcks := next.stats.snapshotAcks, staleSnapshotAcks := next.stats.staleSnapshotAcks,
                                    eventAcks := next.stats.eventAcks, staleEventAcks := next.stats.staleEventAcks)
    requires forall c :: c in next.states && next.states[c].acked != 0 ==> HasApplied(applied, c, next.states[c].acked)
    requires forall c :: c in h.states ==> c in next.states && next.states[c].known == h.states[c].known
    requires forall c :: c in next.states && c !in h.states ==> next.states[c].known == {}
    requires TotalKnown(next.clients, next.states) == TotalKnown(h.clients, h.states)
    ensures Inv(next, applied)
  {
    hide SentTo, HasApplied, TotalKnown, DeltaAttempts;
    assert DeltasOk(next, applied) by {
      forall i | 0 <= i < |next.log| ensures DeltaOk(next.log[i], applied) {
        assert DeltaOk(h.log[i], applied);
      }
    }
    hide DeltasOk, DeltaOk, Alternates;
    assert InterestOk(next) by {
      forall c ensures Alternates(next.log, c) {
        assert Alternates(h.log, c);
      }
      forall c | c !in next.states ensures Folded(next.log, c) == {} && LastSent(next.log, c) == [] {
        assert c !in h.states;
      }
    }
  }

  lemma {:induction false} TotalKnownOthers(clients: seq<ClientId>, states: map<ClientId, ClientState>, client: ClientId, s: ClientState)
    requires client !in clients
    ensures TotalKnown(clients, states[client := s]) == TotalKnown(clients, states)
  {
    if clients != [] {
      TotalKnownOthers(clients[..|clients| - 1], states, client, s);
    }
  }

  lemma LoginTotal(h: State, client: ClientId)
    requires client !in h.clients && client !in h.states
    ensures TotalKnown(Login(h, client).clients, Login(h, client).states) == TotalKnown(h.clients, h.states)
  {
    assert (h.clients + [client])[..|h.clients|] == h.clients;
    TotalKnownOthers(h.clients, h.states, client, FRESH_CLIENT);
  }

  lemma LoginKeepsInv(h: State, client: ClientId, applied: Applied)
    requires Inv(h, applied)
    ensures Inv(Login(h, client), applied)
  {
    if client !in h.clients {
      LoginIsWellFormed(h, client);
      LoginTotal(h, client);
      hide WellFormed, TotalKnown;
      QuietStepKeepsInv(h, Login(h, client), applied);
    }
  }

  lemma SnapshotAckKeepsInv(h: State, client: ClientId, id: SnapshotId, applied: Applied)
    requires Inv(h, applied) && HasApplied(applied, client, id)
    ensures Inv(SnapshotAck(h, client, id), applied)
  {
    var next := SnapshotAck(h, client, id);
    hide SnapshotIdsOk, CacheOk, DeltasOk, InterestOk, CountersOk, HasApplied, SentTo, Lookup;
    TotalKnownSame(h.clients, h.states, next.states);
    hide TotalKnown;
    QuietStepKeepsInv(h, next, applied);
  }

  lemma EventAckKeepsInv(h: State, client: ClientId, id: EventId, applied: Applied)
    requires Inv(h, applied)
    ensures Inv(EventAck(h, client, id), applied)
  {
    var next := EventAck(h, client, id);
    hide SnapshotIdsOk, CacheOk, DeltasOk, InterestOk, CountersOk, HasApplied, SentTo;
    TotalKnownSame(h.clients, h.states, next.states);
    hide TotalKnown;
    QuietStepKeepsInv(h, next, applied);
  }

  /** A client applying one more delivered snapshot. */
  lemma ApplyKeepsInv(h: State, applied: Applied, client: ClientId, snapshot: Snapshot)
    requires Inv(h, applied) && SentTo(h.log, client, snapshot)
    ensures Inv(h, applied[client := AppliedBy(applied, client) + [snapshot]])
  {
    var more := applied[client := AppliedBy(applied, client) + [snapshot]];
    forall c, id | HasApplied(applied, c, id)
      ensures HasApplied(more, c, id)
    {
      var a :| a in AppliedBy(applied, c) && a.snapshotId == id;
      assert a in AppliedBy(more, c);
    }
    assert AppliedOk(h, more);
    assert DeltasOk(h, more) by {
      forall i | 0 <= i < |h.log| ensures DeltaOk(h.log[i], more) {
        assert DeltaOk(h.log[i], applied);
      }
    }
  }

  /** What one client applied and what the cache holds under the same id are the same:
      ids name one snapshot. */
  lemma CachedIsApplied(h: State, applied: Applied, client: ClientId, cached: Snapshot, a: Snapshot)
    requires Inv(h, applied) && cached in Entries(h.cache, client) && a in AppliedBy(applied, client)
    requires cached.snapshotId == a.snapshotId
    ensures cached == a
  {
    assert SentTo(h.log, client, cached) && SentTo(h.log, client, a);
    var i :| 0 <= i < |h.log| && h.log[i].message == SnapshotMessage(cached);
    var j :| 0 <= j < |h.log| && h.log[j].message == SnapshotMessage(a);
    assert i == j;
  }
}
