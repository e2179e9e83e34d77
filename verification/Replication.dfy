/** The replicated data: snapshots of entity state (GameLogic/include/GameLogic/Replication.hpp). */
module Replication {
  import opened Basics

  datatype WeaponType = NoWeapon | Bow
  datatype Priority = Low | Medium | High
  datatype EntityKind = PlayerKind | ProjectileKind
  datatype DeliveryKind = Full | DeltaEligible

  datatype MovementState = MovementState(
    entityId: EntityId, x: int, y: int, vx: int, vy: int, aimX: int, aimY: int)

  datatype CombatState = CombatState(
    entityId: EntityId, health: int, maxHealth: int,
    weaponType: WeaponType, weaponWarming: bool, weaponWarmupCompletesAt: Time,
    defeated: bool, respawnAt: Time,
    serverOwnedProjectile: bool, projectileOwner: EntityId)

  datatype ReplicaState = ReplicaState(
    entityId: EntityId, owner: ClientId, kind: EntityKind, priority: Priority)

  datatype EntityState = EntityState(
    movement: MovementState, combat: Option<CombatState>, replica: ReplicaState)
  {
    function Id(): EntityId { replica.entityId }
  }

  datatype Snapshot = Snapshot(
    snapshotId: SnapshotId, baselineId: SnapshotId, deliveryKind: DeliveryKind,
    serverTick: nat, serverTime: Time, ackedInput: Sequence, entities: seq<EntityState>)

  function Ids(entities: seq<EntityState>): (ids: set<EntityId>)
    ensures forall k :: 0 <= k < |entities| ==> entities[k].Id() in ids
  {
    set k | 0 <= k < |entities| :: entities[k].Id()
  }

  ghost predicate DistinctIds(entities: seq<EntityState>) {
    forall i, j :: 0 <= i < j < |entities| ==> entities[i].Id() != entities[j].Id()
  }

  lemma {:induction false} DistinctIdsSize(entities: seq<EntityState>)
    requires DistinctIds(entities)
    ensures |Ids(entities)| == |entities|
  {
    var ids := seq(|entities|, k requires 0 <= k < |entities| => entities[k].Id());
    assert Enumerates(ids, Ids(entities)) by {
      forall x ensures x in ids <==> x in Ids(entities) {
        if x in Ids(entities) {
          var k :| 0 <= k < |entities| && entities[k].Id() == x;
          assert ids[k] == x;
        }
      }
    }
    DistinctLength(ids, Ids(entities));
  }
}
