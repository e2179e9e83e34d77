/** The client's side of the protocol: reading envelopes, applying snapshots, taking events
    and acknowledging (Client/src/ClientProtocolPump.cpp), and its agreement with the
    deliveries of Protocol.dfy. */
module ClientPump {
  import opened Basics
  import opened Replication
  import opened Events
  import opened Host
  import opened Frame
  import opened Fields
  import Wire
  import Clock
  import P = Protocol
  import SD = SnapshotDelivery

  /** What an envelope means to a client. */
  datatype Inbound = Nothing | TimeSyncAnswer(response: Wire.TimeSyncResponse) | Delivered(message: Message)

  function Read(e: Envelope): Inbound {
    if !Valid(e) then Nothing
    else
      match e.messageClass
      case TimeSyncResponse =>
        (match Wire.DecodeTimeSync(e.payload)
         case None => Nothing
         case Some(response) => TimeSyncAnswer(response))
      case CombatEvent => ReadEvent(e)
      case SpawnAccepted => ReadEvent(e)
      case InterestEvent => ReadEvent(e)
      case SnapshotClass =>
        (match Wire.DecodeSnapshot(e.payload)
         case None => Nothing
         case Some(snapshot) => Delivered(SnapshotMessage(snapshot)))
      case _ => Nothing
  }

  function ReadEvent(e: Envelope): Inbound {
    match Wire.DecodeEvent(e.payload)
    case None => Nothing
    case Some(event) => Delivered(EventMessage(event))
  }

  /** The envelope in which the host sends a message. */
  function EnvelopeOf(peer: ClientId, message: Message): Envelope {
    match message
    case SnapshotMessage(snapshot) => SnapshotEnvelope(peer, snapshot)
    case EventMessage(event) => EventEnvelope(peer, event)
  }

  /** Messages whose values fit the wire and whose bytes fit one payload. */
  ghost predicate Sendable(message: Message) {
    match message
    case SnapshotMessage(snapshot) => Wire.SnapshotFits(snapshot) && |Wire.EncodeSnapshot(snapshot)| <= MAX_PAYLOAD
    case EventMessage(event) => Wire.EventFits(event)
  }

  /** The client reads exactly what the host sent. */
  lemma ReadsWhatWasSent(peer: ClientId, message: Message)
    requires Sendable(message)
    ensures Read(EnvelopeOf(peer, message)) == Delivered(message)
  {
    hide Wire.EncodeSnapshot, Wire.DecodeSnapshot, Wire.EncodeEvent, Wire.DecodeEvent, Wire.SnapshotFits, Wire.EventFits;
    match message {
      case SnapshotMessage(snapshot) => Wire.SnapshotRoundTrip(snapshot);
      case EventMessage(event) =>
        EventsAreSmall(event);
        Wire.EventRoundTrip(event);
    }
  }

  // --- the session ---

  datatype Session = Session(
    local: ClientId, applied: seq<Snapshot>, ingested: seq<NetworkEvent>, attempts: nat, acks: seq<P.Ack>,
    connected: bool, samples: seq<Clock.Sample>, lastTimeSync: Sequence, spawns: nat, eventsReceived: nat, eventAcks: nat,
    snapshotsApplied: nat, snapshotAcks: nat, last: Option<Snapshot>)

  function Acknowledge(s: Session, sends: nat -> bool, ack: P.Ack): Session {
    s.(attempts := s.attempts + 1, acks := if sends(s.attempts) then s.acks + [ack] else s.acks)
  }

  function TakeEvent(s: Session, sends: nat -> bool, event: NetworkEvent): Session {
    var own := event.payload.SpawnedDTO? && event.payload.clientId == s.local;
    Acknowledge(s, sends, P.AckEvent(s.local, event.eventId))
    .(eventAcks := s.eventAcks + (if sends(s.attempts) then 1 else 0),
      connected := s.connected || own, spawns := s.spawns + (if own then 1 else 0),
      ingested := s.ingested + [event], eventsReceived := s.eventsReceived + 1)
  }

  function TakeSnapshot(s: Session, sends: nat -> bool, snapshot: Snapshot): Session {
    Acknowledge(s.(applied := s.applied + [snapshot]), sends, P.AckSnapshot(s.local, snapshot.snapshotId))
    .(snapshotAcks := s.snapshotAcks + (if sends(s.attempts) then 1 else 0),
      snapshotsApplied := s.snapshotsApplied + 1, last := Some(snapshot))
  }

  /** A sample for the clock; without a local receive time the send time stands in. */
  function TakeTime(s: Session, response: Wire.TimeSyncResponse, at: Time): Session {
    s.(samples := s.samples + [Clock.Sample(response.clientSent, response.serverReceived, if at != 0 then at else response.clientSent)],
       lastTimeSync := response.sequence)
  }

  function Take(s: Session, sends: nat -> bool, at: Time, m: Inbound): Session {
    match m
    case Nothing => s
    case TimeSyncAnswer(response) => TakeTime(s, response, at)
    case Delivered(EventMessage(event)) => TakeEvent(s, sends, event)
    case Delivered(SnapshotMessage(snapshot)) => TakeSnapshot(s, sends, snapshot)
  }

  function TakeAll(s: Session, sends: nat -> bool, at: Time, inbox: seq<Envelope>, n: nat): Session
    requires n <= |inbox|
  {
    if n == 0 then s else Take(TakeAll(s, sends, at, inbox, n - 1), sends, at, Read(inbox[n - 1]))
  }

  // --- agreement with the protocol ---

  ghost predicate Agrees(s: Session, sys: P.System, before: set<P.Ack>) {
    && s.applied == SD.AppliedBy(sys.applied, s.local)
    && s.ingested == P.Ingested(sys, s.local)
    && sys.acks == before + AckSet(s.acks)
  }

  /** The log entries are accepted messages to this client that fit the wire. */
  ghost predicate Deliverable(sys: P.System, client: ClientId, entries: seq<nat>) {
    forall k :: 0 <= k < |entries| ==>
      && entries[k] < |sys.host.log|
      && sys.host.log[entries[k]].accepted && sys.host.log[entries[k]].peer == client
      && Sendable(sys.host.log[entries[k]].message)
  }

  function Inbox(sys: P.System, client: ClientId, entries: seq<nat>): seq<Envelope>
    requires Deliverable(sys, client, entries)
  {
    seq(|entries|, k requires 0 <= k < |entries| => EnvelopeOf(client, sys.host.log[entries[k]].message))
  }

  /** The protocol's deliveries of the same entries, with the same acknowledgement luck. */
  function DeliverAll(config: Config, oracle: Oracle, sys: P.System, entries: seq<nat>, first: nat, sends: nat -> bool, n: nat): P.System
    requires n <= |entries|
  {
    if n == 0 then sys
    else P.Step(config, oracle, DeliverAll(config, oracle, sys, entries, first, sends, n - 1), P.Deliver(entries[n - 1], sends(first + n - 1)))
  }

  function AckSet(acks: seq<P.Ack>): set<P.Ack> {
    set a | a in acks
  }

  lemma AcknowledgeAgrees(s: Session, sends: nat -> bool, ack: P.Ack, before: set<P.Ack>)
    ensures before + AckSet(Acknowledge(s, sends, ack).acks)
         == before + AckSet(s.acks) + (if sends(s.attempts) then {ack} else {})
  {
  }

  lemma SnapshotIsDelivery(sys: P.System, s: Session, before: set<P.Ack>, snapshot: Snapshot, sends: nat -> bool)
    requires Agrees(s, sys, before)
    ensures Agrees(TakeSnapshot(s, sends, snapshot), P.Receive(sys, s.local, SnapshotMessage(snapshot), sends(s.attempts)), before)
  {
    AcknowledgeAgrees(s.(applied := s.applied + [snapshot]), sends, P.AckSnapshot(s.local, snapshot.snapshotId), before);
    hide AckSet;
  }

  lemma EventIsDelivery(sys: P.System, s: Session, before: set<P.Ack>, event: NetworkEvent, sends: nat -> bool)
    requires Agrees(s, sys, before)
    ensures Agrees(TakeEvent(s, sends, event), P.Receive(sys, s.local, EventMessage(event), sends(s.attempts)), before)
  {
    AcknowledgeAgrees(s, sends, P.AckEvent(s.local, event.eventId), before);
    hide AckSet;
  }

  lemma TakeIsDelivery(config: Config, oracle: Oracle, sys: P.System, s: Session, before: set<P.Ack>, entry: nat, sends: nat -> bool, at: Time)
    requires Agrees(s, sys, before)
    requires entry < |sys.host.log| && sys.host.log[entry].accepted && sys.host.log[entry].peer == s.local
    ensures var next := P.Step(config, oracle, sys, P.Deliver(entry, sends(s.attempts)));
            var taken := Take(s, sends, at, Delivered(sys.host.log[entry].message));
            Agrees(taken, next, before) && next.host == sys.host && taken.attempts == s.attempts + 1 && taken.local == s.local
  {
    hide Agrees;
    match sys.host.log[entry].message {
      case SnapshotMessage(snapshot) => SnapshotIsDelivery(sys, s, before, snapshot, sends);
      case EventMessage(event) => EventIsDelivery(sys, s, before, event, sends);
    }
  }

  /** Pumping an inbox of messages the host sent to this client does to the client exactly
      what the protocol's deliveries of those messages do: the same snapshots applied, the
      same events ingested, the same acknowledgements on their way. */
  lemma {:induction false} PumpIsDeliveries(config: Config, oracle: Oracle, sys: P.System, s: Session, before: set<P.Ack>, entries: seq<nat>, sends: nat -> bool, at: Time, n: nat)
    requires Agrees(s, sys, before) && Deliverable(sys, s.local, entries) && n <= |entries|
    ensures var next := DeliverAll(config, oracle, sys, entries, s.attempts, sends, n);
            var taken := TakeAll(s, sends, at, Inbox(sys, s.local, entries), n);
            Agrees(taken, next, before) && next.host == sys.host && taken.attempts == s.attempts + n && taken.local == s.local
  {
    hide Agrees, Read, Take, EnvelopeOf, P.Step, Sendable;
    if n > 0 {
      PumpIsDeliveries(config, oracle, sys, s, before, entries, sends, at, n - 1);
      var reached := DeliverAll(config, oracle, sys, entries, s.attempts, sends, n - 1);
      var taken := TakeAll(s, sends, at, Inbox(sys, s.local, entries), n - 1);
      ReadsWhatWasSent(s.local, sys.host.log[entries[n - 1]].message);
      TakeIsDelivery(config, oracle, reached, taken, before, entries[n - 1], sends, at);
    }
  }

  // --- what a session adds up to ---

  /** The accepted spawns of the session's own player. */
  function OwnSpawns(local: ClientId, events: seq<NetworkEvent>): nat {
    if events == [] then 0
    else
      var p := events[|events| - 1].payload;
      OwnSpawns(local, events[..|events| - 1]) + (if p.SpawnedDTO? && p.clientId == local then 1 else 0)
  }

  /** The session's counters are what it has taken: snapshots, events, acknowledgements
      sent, own spawns; it is connected once its own spawn has been accepted. */
  ghost predicate AddsUp(s: Session) {
    && s.snapshotsApplied == |s.applied| && s.eventsReceived == |s.ingested|
    && s.attempts == |s.applied| + |s.ingested|
    && s.snapshotAcks + s.eventAcks == |s.acks| <= s.attempts
    && s.last == (if s.applied == [] then None else Some(s.applied[|s.applied| - 1]))
    && s.spawns == OwnSpawns(s.local, s.ingested)
    && (s.connected <==> s.spawns > 0)
  }

  lemma TakeAddsUp(s: Session, sends: nat -> bool, at: Time, m: Inbound)
    requires AddsUp(s)
    ensures AddsUp(Take(s, sends, at, m)) && Take(s, sends, at, m).local == s.local
  {
    if m.Delivered? && m.message.EventMessage? {
      assert (s.ingested + [m.message.event])[..|s.ingested|] == s.ingested;
    }
  }

  lemma {:induction false} SessionAddsUp(s: Session, sends: nat -> bool, at: Time, inbox: seq<Envelope>, n: nat)
    requires AddsUp(s) && n <= |inbox|
    ensures AddsUp(TakeAll(s, sends, at, inbox, n))
  {
    hide AddsUp, Take, Read;
    if n > 0 {
      SessionAddsUp(s, sends, at, inbox, n - 1);
      TakeAddsUp(TakeAll(s, sends, at, inbox, n - 1), sends, at, Read(inbox[n - 1]));
    }
  }

  /** A time answer in a valid envelope becomes a clock sample: what the client sent and the
      server received, and when it arrived, or when it was sent if that is not known. */
  lemma TimeAnswersAreSampled(s: Session, sends: nat -> bool, at: Time, peer: ClientId, sequence: nat, r: Wire.TimeSyncResponse)
    requires AllFit(Wire.TIME_SYNC, Wire.TimeSyncValues(r)) && |Wire.EncodeTimeSync(r)| <= MAX_PAYLOAD
    ensures var next := Take(s, sends, at, Read(Envelope(1, peer, TimeSync, TimeSyncResponse, sequence, Wire.EncodeTimeSync(r))));
            && next.samples == s.samples + [Clock.Sample(r.clientSent, r.serverReceived, if at == 0 then r.clientSent else at)]
            && next == s.(samples := next.samples, lastTimeSync := r.sequence)
  {
    Wire.TimeSyncRoundTrip(r, Wire.EncodeTimeSync(r));
    hide Wire.EncodeTimeSync, Wire.DecodeTimeSync;
  }

  // --- the pump object ---

  class ClientProtocolPump {
    const sends: nat -> bool
    var inbox: seq<Envelope>
    var session: Session
    var reliableEvents: seq<DomainEvent>

    constructor (local: ClientId, sends: nat -> bool)
      ensures this.sends == sends && inbox == [] && reliableEvents == []
      ensures session == Session(local, [], [], 0, [], false, [], 0, 0, 0, 0, 0, 0, None)
    {
      this.sends := sends;
      inbox, reliableEvents := [], [];
      session := Session(local, [], [], 0, [], false, [], 0, 0, 0, 0, 0, 0, None);
    }

    method SendAck(ack: P.Ack) returns (sent: bool)
      modifies this`session
      ensures session == Acknowledge(old(session), sends, ack) && (sent <==> sends(old(session).attempts))
    {
      sent := sends(session.attempts);
      session := session.(attempts := session.attempts + 1, acks := if sent then session.acks + [ack] else session.acks);
    }

    method HandleEvent(event: NetworkEvent)
      modifies this`session, this`reliableEvents
      ensures session == TakeEvent(old(session), sends, event)
      ensures reliableEvents == old(reliableEvents) + [ToDomainEvent(event)]
    {
      var sent := SendAck(P.AckEvent(session.local, event.eventId));
      if sent {
        session := session.(eventAcks := session.eventAcks + 1);
      }
      if event.payload.SpawnedDTO? && event.payload.clientId == session.local {
        session := session.(connected := true, spawns := session.spawns + 1);
      }
      reliableEvents := reliableEvents + [ToDomainEvent(event)];
      session := session.(ingested := session.ingested + [event], eventsReceived := session.eventsReceived + 1);
    }

    method HandleSnapshot(snapshot: Snapshot)
      modifies this`session
      ensures session == TakeSnapshot(old(session), sends, snapshot)
    {
      session := session.(applied := session.applied + [snapshot]);
      var sent := SendAck(P.AckSnapshot(session.local, snapshot.snapshotId));
      if sent {
        session := session.(snapshotAcks := session.snapshotAcks + 1);
      }
      session := session.(last := Some(snapshot), snapshotsApplied := session.snapshotsApplied + 1);
    }

    method PumpIncoming(at: Time) returns (applied: nat)
      modifies this
      ensures inbox == []
      ensures session == TakeAll(old(session), sends, at, old(inbox), |old(inbox)|)
      ensures |session.ingested| - |old(session).ingested| == |reliableEvents| - |old(reliableEvents)|
      ensures applied == session.snapshotsApplied - old(session).snapshotsApplied
    {
      hide Read, TakeEvent, TakeSnapshot;
      applied := 0;
      ghost var all := inbox;
      ghost var done := 0;
      while inbox != []
        invariant done <= |all| && inbox == all[done..]
        invariant session == TakeAll(old(session), sends, at, all, done)
        invariant |session.ingested| - |old(session).ingested| == |reliableEvents| - |old(reliableEvents)|
        invariant applied == session.snapshotsApplied - old(session).snapshotsApplied
        decreases |inbox|
      {
        var envelope := inbox[0];
        inbox := inbox[1..];
        done := done + 1;
        ghost var was := session;
        TakeCounts(was, sends);
        match Read(envelope) {
          case Nothing =>
          case TimeSyncAnswer(response) => session := TakeTime(session, response, at);
          case Delivered(EventMessage(event)) => HandleEvent(event);
          case Delivered(SnapshotMessage(snapshot)) =>
            HandleSnapshot(snapshot);
            applied := applied + 1;
        }
      }
    }
  }

  lemma TakeCounts(s: Session, sends: nat -> bool)
    ensures forall event :: |TakeEvent(s, sends, event).ingested| == |s.ingested| + 1
    ensures forall event :: TakeEvent(s, sends, event).snapshotsApplied == s.snapshotsApplied
    ensures forall snapshot :: TakeSnapshot(s, sends, snapshot).snapshotsApplied == s.snapshotsApplied + 1
    ensures forall snapshot :: TakeSnapshot(s, sends, snapshot).ingested == s.ingested
  {
  }
}
