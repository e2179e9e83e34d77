/** Domain events and the reliable network events made from them
    (GameLogic/include/GameLogic/Events.hpp, GameLogic/src/NetworkEvents.cpp). */
module Events {
  import opened Basics
  import opened Replication

  datatype DomainEvent =
    | PlayerSpawned(entityId: EntityId, clientId: ClientId, x: int, y: int)
    | PlayerMoved(entityId: EntityId, fromX: int, fromY: int, toX: int, toY: int)
    | WarmupStarted(entityId: EntityId, startedAt: Time, completesAt: Time, weaponType: WeaponType)
    | BowFired(entityId: EntityId, firedAt: Time, weaponType: WeaponType)
    | ProjectileSpawned(projectileId: EntityId, ownerId: EntityId, x: int, y: int, weaponType: WeaponType)
    | HitConfirmed(attackerId: EntityId, targetId: EntityId, projectileId: EntityId, serverTime: Time)
    | PlayerDamaged(entityId: EntityId, attackerId: EntityId, damage: int, healthAfter: int)
    | PlayerDied(entityId: EntityId, attackerId: EntityId, respawnAt: Time)
    | PlayerRespawned(entityId: EntityId, x: int, y: int)
    | EnteredInterest(entityId: EntityId, observer: ClientId)
    | LeftInterest(entityId: EntityId, observer: ClientId)
    | SnapshotApplied(snapshotId: SnapshotId, baselineId: SnapshotId, ackedInput: Sequence)
    | PredictionCorrected(entityId: EntityId, predictedX: int, predictedY: int, x: int, y: int)

  datatype Payload =
    | SpawnedDTO(entityId: EntityId, clientId: ClientId, x: int, y: int)
    | WarmupDTO(entityId: EntityId, startedAt: Time, completesAt: Time, weaponType: WeaponType)
    | FiredDTO(entityId: EntityId, firedAt: Time, weaponType: WeaponType)
    | ProjectileDTO(projectileId: EntityId, ownerId: EntityId, x: int, y: int, weaponType: WeaponType)
    | HitDTO(attackerId: EntityId, targetId: EntityId, projectileId: EntityId, hitTime: Time)
    | DamagedDTO(entityId: EntityId, attackerId: EntityId, damage: int, healthAfter: int)
    | DiedDTO(entityId: EntityId, attackerId: EntityId, respawnAt: Time)
    | RespawnedDTO(entityId: EntityId, x: int, y: int)
    | EnteredDTO(entityId: EntityId, observer: ClientId)
    | LeftDTO(entityId: EntityId, observer: ClientId)

  datatype NetworkEvent = NetworkEvent(
    eventId: EventId, serverTick: nat, serverTime: Time, payload: Payload)

  function ToPayload(event: DomainEvent): Option<Payload> {
    match event
    case PlayerSpawned(id, c, x, y) => Some(SpawnedDTO(id, c, x, y))
    case WarmupStarted(id, s, t, w) => Some(WarmupDTO(id, s, t, w))
    case BowFired(id, t, w) => Some(FiredDTO(id, t, w))
    case ProjectileSpawned(p, o, x, y, w) => Some(ProjectileDTO(p, o, x, y, w))
    case HitConfirmed(a, t, p, time) => Some(HitDTO(a, t, p, time))
    case PlayerDamaged(id, a, d, h) => Some(DamagedDTO(id, a, d, h))
    case PlayerDied(id, a, r) => Some(DiedDTO(id, a, r))
    case PlayerRespawned(id, x, y) => Some(RespawnedDTO(id, x, y))
    case EnteredInterest(id, o) => Some(EnteredDTO(id, o))
    case LeftInterest(id, o) => Some(LeftDTO(id, o))
    case _ => None
  }

  function ToNetworkEvent(id: EventId, tick: nat, time: Time, event: DomainEvent): Option<NetworkEvent> {
    match ToPayload(event)
    case None => None
    case Some(payload) => Some(NetworkEvent(id, tick, time, payload))
  }

  function ToDomainEvent(event: NetworkEvent): DomainEvent {
    match event.payload
    case SpawnedDTO(id, c, x, y) => PlayerSpawned(id, c, x, y)
    case WarmupDTO(id, s, t, w) => WarmupStarted(id, s, t, w)
    case FiredDTO(id, t, w) => BowFired(id, t, w)
    case ProjectileDTO(p, o, x, y, w) => ProjectileSpawned(p, o, x, y, w)
    case HitDTO(a, t, p, time) => HitConfirmed(a, t, p, time)
    case DamagedDTO(id, a, d, h) => PlayerDamaged(id, a, d, h)
    case DiedDTO(id, a, r) => PlayerDied(id, a, r)
    case RespawnedDTO(id, x, y) => PlayerRespawned(id, x, y)
    case EnteredDTO(id, o) => EnteredInterest(id, o)
    case LeftDTO(id, o) => LeftInterest(id, o)
  }

  /** Interest events are for one observer; every other event is for all clients. */
  function ObserverOnly(payload: Payload): Option<ClientId> {
    match payload
    case EnteredDTO(_, observer) => Some(observer)
    case LeftDTO(_, observer) => Some(observer)
    case _ => None
  }

  /** The two forms agree: an event that has a network form comes back from it unchanged,
      every network event is the form of the event it stands for, and only movement and the
      two client-side events have none. */
  lemma FormsAgree(id: EventId, tick: nat, time: Time, event: DomainEvent, networkEvent: NetworkEvent)
    ensures var form := ToNetworkEvent(id, tick, time, event);
            && (form.None? <==> event.PlayerMoved? || event.SnapshotApplied? || event.PredictionCorrected?)
            && (form.Some? ==> ToDomainEvent(form.value) == event && form.value.eventId == id)
    ensures ToNetworkEvent(networkEvent.eventId, networkEvent.serverTick, networkEvent.serverTime, ToDomainEvent(networkEvent))
         == Some(networkEvent)
  {
  }
}
