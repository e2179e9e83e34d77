/** What a few steps in a row achieve, from every reachable state: a newcomer is served, a
    delivered event is released, an applied snapshot becomes the next baseline. */
module Liveness {
  import opened Basics
  import opened Replication
  import opened BaselineCache
  import opened ClientReplication
  import opened Host
  import opened Protocol
  import opened SnapshotTurns
  import RD = ReliableDelivery
  import SD = SnapshotDelivery

  lemma RunSnoc(config: Config, oracle: Oracle, actions: seq<Action>, action: Action)
    requires Legal(oracle, actions) && (action.HostTick? ==> SD.ServerWorld(action.world))
    ensures Run(config, oracle, actions + [action]) == Step(config, oracle, Run(config, oracle, actions), action)
    ensures Legal(oracle, actions + [action])
  {
    assert (actions + [action])[..|actions|] == actions;
    hide Step;
  }

  lemma RunIsWellFormed(config: Config, oracle: Oracle, actions: seq<Action>)
    requires Legal(oracle, actions)
    ensures WellFormed(Run(config, oracle, actions).host)
  {
    RunKeepsInv(config, oracle, actions);
    hide Run, SD.Inv, AcksOk;
    RD.InvWellFormed(Run(config, oracle, actions).host, config, Run(config, oracle, actions).released);
  }

  /** The tick after these actions. */
  function Ticked(config: Config, oracle: Oracle, actions: seq<Action>, world: World, now: Time): State {
    Tick(Run(config, oracle, actions).host, oracle, config, world, now)
  }

  /** The attempts of one tick to send a client a snapshot: exactly one, of this kind. */
  ghost predicate ServedOnce(before: State, after: State, client: ClientId, kind: DeliveryKind, baselineId: SnapshotId) {
    var t, u := SnapshotTries(before.log, client), SnapshotTries(after.log, client);
    && |u| == |t| + 1 && t <= u
    && u[|t|].message.SnapshotMessage?
    && u[|t|].message.snapshot.deliveryKind == kind && u[|t|].message.snapshot.baselineId == baselineId
  }

  lemma TurnServes(h: State, next: State, config: Config, world: World, c: ClientId, now: Time)
    requires Turn(h, next, config, world, c, now) && now >= h.states[c].nextSendAt
    ensures h.states[c].acked == 0 ==> ServedOnce(h, next, c, Full, 0)
    ensures h.states[c].acked != 0 && (exists b :: b in Entries(h.cache, c) && b.snapshotId == h.states[c].acked)
            ==> ServedOnce(h, next, c, DeltaEligible, h.states[c].acked)
  {
    hide SnapshotTries, Entries, Newest;
  }

  lemma LoginIsFresh(h: State, client: ClientId)
    requires WellFormed(h) && client !in h.clients
    ensures var next := Login(h, client);
            && client in next.clients && client in next.states && next.states[client] == ClientState(0, 0, {}, map[])
            && next.clients == h.clients + [client] && next.states == h.states[client := next.states[client]]
            && next.log == h.log && next.cache == h.cache && next.stats == h.stats
  {
    assert client !in h.states;
  }

  /** Whoever logs in is a listed client with nothing acknowledged, known or pending, and
      the very next tick, whenever it is, sends it exactly one snapshot, in full. */
  lemma NewcomerIsServed(config: Config, oracle: Oracle, actions: seq<Action>, client: ClientId, world: World, now: Time)
    requires Legal(oracle, actions) && SD.ServerWorld(world)
    requires client !in Run(config, oracle, actions).host.clients
    ensures var h := Run(config, oracle, actions + [Connect(client)]).host;
            && client in h.clients && client in h.states && h.states[client] == ClientState(0, 0, {}, map[])
            && ServedOnce(h, Ticked(config, oracle, actions + [Connect(client)], world, now), client, Full, 0)
  {
    RunIsWellFormed(config, oracle, actions);
    LoginIsFresh(Run(config, oracle, actions).host, client);
    RunSnoc(config, oracle, actions, Connect(client));
    EveryTurnIsTaken(config, oracle, actions + [Connect(client)], world, now, client);
    var h := Run(config, oracle, actions + [Connect(client)]).host;
    assert h == Login(Run(config, oracle, actions).host, client);
    hide Run, Login, Turn, ServedOnce, Tick, WellFormed, Legal, SD.ServerWorld;
    TurnServes(h, Tick(h, oracle, config, world, now), config, world, client, now);
  }

  /** The attempt at this log position carried this snapshot or event to this client. */
  lemma ReceiveAcknowledges(s: System, client: ClientId, message: Message)
    ensures var t := Receive(s, client, message, true);
            && t.host == s.host && t.released == s.released
            && (message.SnapshotMessage? ==>
                  AckSnapshot(client, message.snapshot.snapshotId) in t.acks
                  && SD.AppliedBy(t.applied, client) == SD.AppliedBy(s.applied, client) + [message.snapshot])
            && (message.EventMessage? ==>
                  AckEvent(client, message.event.eventId) in t.acks
                  && Ingested(t, client) == Ingested(s, client) + [message.event])
  {
  }

  /** Delivering a pending event and then its acknowledgement releases it: the client has
      it, and it is pending no more. */
  lemma DeliveredEventIsReleased(config: Config, oracle: Oracle, actions: seq<Action>, k: nat)
    requires Legal(oracle, actions)
    requires var log := Run(config, oracle, actions).host.log;
             k < |log| && log[k].accepted && log[k].message.EventMessage?
    ensures var s := Run(config, oracle, actions);
            var client, event := s.host.log[k].peer, s.host.log[k].message.event;
            var t := Run(config, oracle, actions + [Deliver(k, true)] + [DeliverAck(AckEvent(client, event.eventId))]);
            && Ingested(t, client) == Ingested(s, client) + [event]
            && event.eventId !in RD.Pending(t.host, client)
            && (event.eventId in RD.Pending(s.host, client) ==> t.host.stats.eventAcks == s.host.stats.eventAcks + 1)
            && (event.eventId !in RD.Pending(s.host, client) ==> t.host.stats.staleEventAcks == s.host.stats.staleEventAcks + 1)
  {
    var s := Run(config, oracle, actions);
    var client, message := s.host.log[k].peer, s.host.log[k].message;
    RunSnoc(config, oracle, actions, Deliver(k, true));
    RunSnoc(config, oracle, actions + [Deliver(k, true)], DeliverAck(AckEvent(client, message.event.eventId)));
    ReceiveAcknowledges(s, client, message);
    hide Run, Receive, RD.Release, Legal;
  }

  /** Applying a snapshot and delivering its acknowledgement makes it the baseline: if it is
      still cached and newer than the last acknowledged one, the client's next due tick
      sends a delta against exactly this snapshot. */
  lemma AppliedSnapshotBecomesBaseline(config: Config, oracle: Oracle, actions: seq<Action>, k: nat, world: World, now: Time)
    requires Legal(oracle, actions) && SD.ServerWorld(world)
    requires var h := Run(config, oracle, actions).host;
             && k < |h.log| && h.log[k].accepted && h.log[k].message.SnapshotMessage?
             && h.log[k].peer in h.clients && h.log[k].message.snapshot in Entries(h.cache, h.log[k].peer)
             && h.log[k].peer in h.states && now >= h.states[h.log[k].peer].nextSendAt
             && h.log[k].message.snapshot.snapshotId > h.states[h.log[k].peer].acked
    ensures var h := Run(config, oracle, actions).host;
            var client, id := h.log[k].peer, h.log[k].message.snapshot.snapshotId;
            var more := actions + [Deliver(k, true)] + [DeliverAck(AckSnapshot(client, id))];
            && Run(config, oracle, more).host.stats.snapshotAcks == h.stats.snapshotAcks + 1
            && ServedOnce(Run(config, oracle, more).host, Ticked(config, oracle, more, world, now), client, DeltaEligible, id)
  {
    var s := Run(config, oracle, actions);
    var client, snapshot := s.host.log[k].peer, s.host.log[k].message.snapshot;
    var ack := DeliverAck(AckSnapshot(client, snapshot.snapshotId));
    var more := actions + [Deliver(k, true)] + [ack];
    RunSnoc(config, oracle, actions, Deliver(k, true));
    RunSnoc(config, oracle, actions + [Deliver(k, true)], ack);
    ReceiveAcknowledges(s, client, s.host.log[k].message);
    AckRaises(s.host, client, snapshot);
    var h := Run(config, oracle, more).host;
    assert h == SnapshotAck(s.host, client, snapshot.snapshotId) by { hide Run, Receive, SnapshotAck, Legal, SD.ServerWorld; }
    EveryTurnIsTaken(config, oracle, more, world, now, client);
    hide Run, Receive, SnapshotAck, Legal, SD.ServerWorld, Step, Turn, Tick, ServedOnce;
    TurnServes(h, Tick(h, oracle, config, world, now), config, world, client, now);
  }

  lemma AckRaises(h: State, client: ClientId, snapshot: Snapshot)
    requires client in h.states && snapshot in Entries(h.cache, client) && snapshot.snapshotId > h.states[client].acked
    ensures var next := SnapshotAck(h, client, snapshot.snapshotId);
            && next.clients == h.clients && next.cache == h.cache && next.log == h.log
            && next.states == h.states[client := h.states[client].(acked := snapshot.snapshotId)]
            && next.stats.snapshotAcks == h.stats.snapshotAcks + 1
  {
  }

  /** An acknowledgement of a snapshot that is not cached, or not newer than the last one,
      is counted as stale and changes nothing else. */
  lemma OtherAcksAreStale(h: State, client: ClientId, id: SnapshotId)
    requires client !in h.states || id <= h.states[client].acked || forall b :: b in Entries(h.cache, client) ==> b.snapshotId != id
    ensures SnapshotAck(h, client, id) == h.(stats := h.stats.(staleSnapshotAcks := h.stats.staleSnapshotAcks + 1))
  {
  }
}
