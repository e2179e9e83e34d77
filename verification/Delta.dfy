/** Classification of a snapshot against an acknowledged baseline
    (GameLogic/src/SnapshotDelta.cpp). */
module Delta {
  import opened Basics
  import opened Replication

  datatype Kind = Added | Changed | Removed | Unchanged
  datatype Entry = Entry(entityId: EntityId, kind: Kind)
  datatype Plan = Plan(
    snapshotId: SnapshotId, baselineId: SnapshotId, baselineMatched: bool,
    entries: seq<Entry>, added: nat, changed: nat, removed: nat, same: nat)

  predicate EquivalentMovement(a: MovementState, b: MovementState) {
    a.entityId == b.entityId && a.x == b.x && a.y == b.y && a.vx == b.vx && a.vy == b.vy
    && a.aimX == b.aimX && a.aimY == b.aimY
  }

  predicate EquivalentCombat(a: CombatState, b: CombatState) {
    a.entityId == b.entityId && a.health == b.health && a.maxHealth == b.maxHealth
    && a.weaponType == b.weaponType && a.weaponWarming == b.weaponWarming
    && a.weaponWarmupCompletesAt == b.weaponWarmupCompletesAt && a.defeated == b.defeated
    && a.respawnAt == b.respawnAt && a.serverOwnedProjectile == b.serverOwnedProjectile
    && a.projectileOwner == b.projectileOwner
  }

  predicate EquivalentReplica(a: ReplicaState, b: ReplicaState) {
    a.entityId == b.entityId && a.owner == b.owner && a.kind == b.kind && a.priority == b.priority
  }

  predicate Equivalent(a: EntityState, b: EntityState) {
    && EquivalentMovement(a.movement, b.movement)
    && EquivalentReplica(a.replica, b.replica)
    && a.combat.Some? == b.combat.Some?
    && (a.combat.Some? ==> EquivalentCombat(a.combat.value, b.combat.value))
  }

  function FindEntity(entities: seq<EntityState>, id: EntityId): (found: Option<EntityState>)
    ensures found.None? <==> id !in Ids(entities)
    ensures found.Some? ==> found.value in entities && found.value.Id() == id
  {
    if entities == [] then None
    else if entities[0].Id() == id then Some(entities[0])
    else
      assert forall x :: x in Ids(entities[1..]) ==> x in Ids(entities) by {
        forall x | x in Ids(entities[1..]) ensures x in Ids(entities) {
          var k :| 0 <= k < |entities[1..]| && entities[1..][k].Id() == x;
          assert entities[k + 1].Id() == x;
        }
      }
      assert id in Ids(entities) ==> id in Ids(entities[1..]) by {
        if id in Ids(entities) {
          var k :| 0 <= k < |entities| && entities[k].Id() == id;
          assert entities[1..][k - 1].Id() == id;
        }
      }
      FindEntity(entities[1..], id)
  }

  function Classify(e: EntityState, baseline: seq<EntityState>): Kind {
    match FindEntity(baseline, e.Id())
    case None => Added
    case Some(b) => if Equivalent(e, b) then Unchanged else Changed
  }

  function CurrentEntries(current: seq<EntityState>, baseline: seq<EntityState>): seq<Entry> {
    if current == [] then []
    else
      var e := current[|current| - 1];
      CurrentEntries(current[..|current| - 1], baseline) + [Entry(e.Id(), Classify(e, baseline))]
  }

  function RemovedEntries(currentIds: set<EntityId>, baseline: seq<EntityState>): seq<Entry> {
    if baseline == [] then []
    else
      var id := baseline[|baseline| - 1].Id();
      RemovedEntries(currentIds, baseline[..|baseline| - 1])
      + (if id in currentIds then [] else [Entry(id, Removed)])
  }

  function Entries(current: seq<EntityState>, baseline: seq<EntityState>): seq<Entry> {
    CurrentEntries(current, baseline) + RemovedEntries(Ids(current), baseline)
  }

  function CountKind(entries: seq<Entry>, kind: Kind): nat {
    if entries == [] then 0
    else CountKind(entries[..|entries| - 1], kind) + (if entries[|entries| - 1].kind == kind then 1 else 0)
  }

  function PlanOf(current: Snapshot, baseline: Snapshot): Plan {
    PlanWith(current, baseline, Entries(current.entities, baseline.entities))
  }

  // --- a delta payload built from the plan, and its receiver ---

  /** The states a delta message would carry: those of added and changed entities. */
  function Carried(entries: seq<Entry>, current: seq<EntityState>): map<EntityId, EntityState> {
    map id | id in Ids(current) && Carries(entries, id) && FindEntity(current, id).Some?
      :: FindEntity(current, id).value
  }

  predicate Carries(entries: seq<Entry>, id: EntityId) {
    Entry(id, Added) in entries || Entry(id, Changed) in entries
  }

  /** What a receiver that holds the baseline makes of the plan and the carried
      states. None when an entry cannot be resolved. */
  function Rebuild(entries: seq<Entry>, carried: map<EntityId, EntityState>, baseline: seq<EntityState>): Option<seq<EntityState>> {
    if entries == [] then Some([])
    else
      var entry := entries[|entries| - 1];
      match Rebuild(entries[..|entries| - 1], carried, baseline)
      case None => None
      case Some(built) =>
        match entry.kind
        case Removed => Some(built)
        case Unchanged =>
          (match FindEntity(baseline, entry.entityId)
           case None => None
           case Some(b) => Some(built + [b]))
        case _ =>
          if entry.entityId in carried then Some(built + [carried[entry.entityId]]) else None
  }

  /** Field-by-field equivalence leaves nothing out. */
  lemma EquivalentIsEqual(a: EntityState, b: EntityState)
    ensures Equivalent(a, b) <==> a == b
  {
  }

  lemma {:induction false} FindInDistinct(entities: seq<EntityState>, k: nat)
    requires DistinctIds(entities) && k < |entities|
    ensures FindEntity(entities, entities[k].Id()) == Some(entities[k])
  {
    if k > 0 {
      assert entities[0].Id() != entities[k].Id();
      FindInDistinct(entities[1..], k - 1);
    }
  }

  lemma {:induction false} RebuildCurrent(current: seq<EntityState>, whole: seq<EntityState>, carried: map<EntityId, EntityState>, baseline: seq<EntityState>)
    requires DistinctIds(whole) && current <= whole
    requires forall k :: 0 <= k < |current| && Classify(current[k], baseline) != Unchanged
               ==> current[k].Id() in carried && carried[current[k].Id()] == current[k]
    ensures Rebuild(CurrentEntries(current, baseline), carried, baseline) == Some(current)
  {
    if current != [] {
      var front := current[..|current| - 1];
      var e := current[|current| - 1];
      RebuildCurrent(front, whole, carried, baseline);
      var entries := CurrentEntries(current, baseline);
      assert entries[..|entries| - 1] == CurrentEntries(front, baseline);
      assert current == front + [e];
      if Classify(e, baseline) == Unchanged {
        EquivalentIsEqual(e, FindEntity(baseline, e.Id()).value);
      }
    }
  }

  lemma RebuildSkipsOne(entries: seq<Entry>, id: EntityId, carried: map<EntityId, EntityState>, baseline: seq<EntityState>)
    ensures Rebuild(entries + [Entry(id, Removed)], carried, baseline) == Rebuild(entries, carried, baseline)
  {
    assert (entries + [Entry(id, Removed)])[..|entries|] == entries;
  }

  lemma {:induction false} RebuildSkipsRemoved(built: seq<Entry>, currentIds: set<EntityId>, removedFrom: seq<EntityState>, carried: map<EntityId, EntityState>, baseline: seq<EntityState>)
    ensures Rebuild(built + RemovedEntries(currentIds, removedFrom), carried, baseline)
         == Rebuild(built, carried, baseline)
  {
    if removedFrom == [] {
      assert built + [] == built;
    } else {
      var front := RemovedEntries(currentIds, removedFrom[..|removedFrom| - 1]);
      var id := removedFrom[|removedFrom| - 1].Id();
      RebuildSkipsRemoved(built, currentIds, removedFrom[..|removedFrom| - 1], carried, baseline);
      RebuildSkipsOne(built + front, id, carried, baseline);
      assert built + (front + []) == built + front;
      assert built + (front + [Entry(id, Removed)]) == built + front + [Entry(id, Removed)];
    }
  }

  lemma {:induction false} EntryAt(current: seq<EntityState>, baseline: seq<EntityState>, k: nat)
    requires k < |current|
    ensures Entry(current[k].Id(), Classify(current[k], baseline)) in CurrentEntries(current, baseline)
  {
    if k < |current| - 1 {
      EntryAt(current[..|current| - 1], baseline, k);
    }
  }

  /** The plan is enough: a receiver with the baseline, the plan and only the added
      and changed states rebuilds exactly the current entities, in order. */
  lemma PlanRebuildsCurrent(current: seq<EntityState>, baseline: seq<EntityState>)
    requires DistinctIds(current)
    ensures var entries := Entries(current, baseline);
            Rebuild(entries, Carried(entries, current), baseline) == Some(current)
  {
    var entries := Entries(current, baseline);
    var carried := Carried(entries, current);
    forall k | 0 <= k < |current| && Classify(current[k], baseline) != Unchanged
      ensures current[k].Id() in carried && carried[current[k].Id()] == current[k]
    {
      EntryAt(current, baseline, k);
      assert Classify(current[k], baseline) == Added || Classify(current[k], baseline) == Changed;
      FindInDistinct(current, k);
    }
    RebuildCurrent(current, current, carried, baseline);
    RebuildSkipsRemoved(CurrentEntries(current, baseline), Ids(current), baseline, carried, baseline);
  }

  // --- the counts ---

  lemma {:induction false} CountConcat(a: seq<Entry>, b: seq<Entry>, kind: Kind)
    ensures CountKind(a + b, kind) == CountKind(a, kind) + CountKind(b, kind)
  {
    if b == [] {
      assert a + b == a;
    } else {
      CountConcat(a, b[..|b| - 1], kind);
      assert (a + b)[..|a + b| - 1] == a + b[..|b| - 1];
    }
  }

  lemma CountSnoc(es: seq<Entry>, e: Entry, kind: Kind)
    ensures CountKind(es + [e], kind) == CountKind(es, kind) + (if e.kind == kind then 1 else 0)
  {
    assert (es + [e])[..|es|] == es;
  }

  lemma CountsSnoc(es: seq<Entry>, e: Entry)
    ensures forall kind: Kind ::
              CountKind(es + [e], kind) == CountKind(es, kind) + (if e.kind == kind then 1 else 0)
  {
    forall kind: Kind
      ensures CountKind(es + [e], kind) == CountKind(es, kind) + (if e.kind == kind then 1 else 0)
    {
      CountSnoc(es, e, kind);
    }
  }

  lemma {:induction false} CountCurrent(current: seq<EntityState>, baseline: seq<EntityState>)
    requires DistinctIds(current)
    ensures var es := CurrentEntries(current, baseline);
            && CountKind(es, Added) + CountKind(es, Changed) + CountKind(es, Unchanged) == |current|
            && CountKind(es, Changed) + CountKind(es, Unchanged) == |Ids(current) * Ids(baseline)|
            && CountKind(es, Removed) == 0
  {
    if current == [] {
      assert Ids(current) * Ids(baseline) == {};
    } else {
      var front := current[..|current| - 1];
      var e := current[|current| - 1];
      CountCurrent(front, baseline);
      CountsSnoc(CurrentEntries(front, baseline), Entry(e.Id(), Classify(e, baseline)));
      var common := Ids(front) * Ids(baseline);
      IdsLast(current);
      assert e.Id() !in common;
      if e.Id() in Ids(baseline) {
        assert Ids(current) * Ids(baseline) == common + {e.Id()};
      } else {
        assert Ids(current) * Ids(baseline) == common;
      }
    }
  }

  lemma IdsLast(entities: seq<EntityState>)
    requires entities != [] && DistinctIds(entities)
    ensures Ids(entities) == Ids(entities[..|entities| - 1]) + {entities[|entities| - 1].Id()}
    ensures entities[|entities| - 1].Id() !in Ids(entities[..|entities| - 1])
  {
    var front := entities[..|entities| - 1];
    forall id | id in Ids(entities)
      ensures id in Ids(front) + {entities[|entities| - 1].Id()}
    {
      var k :| 0 <= k < |entities| && entities[k].Id() == id;
      assert k < |front| ==> front[k].Id() == id;
    }
    forall id | id in Ids(front)
      ensures id in Ids(entities) && id != entities[|entities| - 1].Id()
    {
      var k :| 0 <= k < |front| && front[k].Id() == id;
      assert entities[k].Id() == id;
    }
  }

  lemma {:induction false} CountRemoved(currentIds: set<EntityId>, baseline: seq<EntityState>)
    requires DistinctIds(baseline)
    ensures var rs := RemovedEntries(currentIds, baseline);
            && CountKind(rs, Removed) == |Ids(baseline) - currentIds| == |rs|
            && CountKind(rs, Added) == 0 && CountKind(rs, Changed) == 0 && CountKind(rs, Unchanged) == 0
  {
    if baseline == [] {
      assert Ids(baseline) - currentIds == {};
    } else {
      var front := baseline[..|baseline| - 1];
      var id := baseline[|baseline| - 1].Id();
      CountRemoved(currentIds, front);
      IdsLast(baseline);
      if id in currentIds {
        assert RemovedEntries(currentIds, baseline) == RemovedEntries(currentIds, front);
        assert Ids(baseline) - currentIds == Ids(front) - currentIds;
      } else {
        CountsSnoc(RemovedEntries(currentIds, front), Entry(id, Removed));
        assert Ids(baseline) - currentIds == (Ids(front) - currentIds) + {id};
      }
    }
  }

  /** Every current entity is added, changed or unchanged; every baseline entity is
      removed, changed or unchanged; nothing is counted twice. */
  lemma PlanCounts(current: Snapshot, baseline: Snapshot)
    requires DistinctIds(current.entities) && DistinctIds(baseline.entities)
    ensures var plan := PlanOf(current, baseline);
            && plan.added + plan.changed + plan.same == |current.entities|
            && plan.removed + plan.changed + plan.same == |baseline.entities|
  {
    var c, b := current.entities, baseline.entities;
    CountCurrent(c, b);
    CountRemoved(Ids(c), b);
    DistinctIdsSize(b);
    assert Ids(b) == (Ids(b) - Ids(c)) + Ids(c) * Ids(b);
    assert |Ids(b)| == |Ids(b) - Ids(c)| + |Ids(c) * Ids(b)|;
    CountConcat(CurrentEntries(c, b), RemovedEntries(Ids(c), b), Added);
    CountConcat(CurrentEntries(c, b), RemovedEntries(Ids(c), b), Changed);
    CountConcat(CurrentEntries(c, b), RemovedEntries(Ids(c), b), Removed);
    CountConcat(CurrentEntries(c, b), RemovedEntries(Ids(c), b), Unchanged);
  }

  // --- the entries, read off the two snapshots ---

  lemma {:induction false} CurrentEntryAt(current: seq<EntityState>, baseline: seq<EntityState>)
    ensures |CurrentEntries(current, baseline)| == |current|
    ensures forall k :: 0 <= k < |current| ==>
              CurrentEntries(current, baseline)[k] == Entry(current[k].Id(), Classify(current[k], baseline))
  {
    if current != [] {
      CurrentEntryAt(current[..|current| - 1], baseline);
    }
  }

  ghost predicate DistinctEntries(entries: seq<Entry>) {
    forall i, j :: 0 <= i < j < |entries| ==> entries[i].entityId != entries[j].entityId
  }

  lemma {:induction false} RemovedEntriesAre(currentIds: set<EntityId>, baseline: seq<EntityState>)
    requires DistinctIds(baseline)
    ensures var rs := RemovedEntries(currentIds, baseline);
            && DistinctEntries(rs)
            && (forall k :: 0 <= k < |rs| ==> rs[k].kind == Removed && rs[k].entityId in Ids(baseline) - currentIds)
            && (forall id :: id in Ids(baseline) - currentIds ==> Entry(id, Removed) in rs)
  {
    if baseline != [] {
      RemovedEntriesAre(currentIds, baseline[..|baseline| - 1]);
      IdsLast(baseline);
    }
  }

  /** What an entry claims, said of the two snapshots themselves. */
  ghost predicate Rightly(entry: Entry, current: seq<EntityState>, baseline: seq<EntityState>) {
    var id := entry.entityId;
    match entry.kind
    case Added => id in Ids(current) && id !in Ids(baseline)
    case Removed => id in Ids(baseline) && id !in Ids(current)
    case Unchanged => exists e :: e in current && e in baseline && e.Id() == id
    case Changed => id in Ids(current) && id in Ids(baseline) && forall e :: e in current && e in baseline ==> e.Id() != id
  }

  lemma ClassifiesRightly(current: seq<EntityState>, baseline: seq<EntityState>, k: nat)
    requires DistinctIds(current) && DistinctIds(baseline) && k < |current|
    ensures Rightly(Entry(current[k].Id(), Classify(current[k], baseline)), current, baseline)
  {
    var e := current[k];
    if e.Id() in Ids(baseline) {
      var j :| 0 <= j < |baseline| && baseline[j].Id() == e.Id();
      FindInDistinct(baseline, j);
      EquivalentIsEqual(e, baseline[j]);
    }
    hide Equivalent, FindEntity;
  }

  /** Every entity of either snapshot has an entry. */
  ghost predicate Covers(entries: seq<Entry>, ids: set<EntityId>) {
    forall id :: id in ids ==> exists k :: 0 <= k < |entries| && entries[k].entityId == id
  }

  lemma EntriesCover(c: seq<EntityState>, b: seq<EntityState>)
    requires DistinctIds(b)
    ensures Covers(Entries(c, b), Ids(c) + Ids(b))
  {
    CurrentEntryAt(c, b);
    RemovedEntriesAre(Ids(c), b);
    var cs, rs := CurrentEntries(c, b), RemovedEntries(Ids(c), b);
    var entries := cs + rs;
    hide CurrentEntries, RemovedEntries, Classify, DistinctEntries, DistinctIds;
    forall id | id in Ids(c) + Ids(b)
      ensures exists k :: 0 <= k < |entries| && entries[k].entityId == id
    {
      if id in Ids(c) {
        var k :| 0 <= k < |c| && c[k].Id() == id;
        assert entries[k] == cs[k];
      } else {
        assert Entry(id, Removed) in rs;
        var k :| 0 <= k < |rs| && rs[k] == Entry(id, Removed);
        assert entries[|c| + k].entityId == id;
      }
    }
  }

  lemma EntriesAreRight(c: seq<EntityState>, b: seq<EntityState>)
    requires DistinctIds(c) && DistinctIds(b)
    ensures forall k :: 0 <= k < |Entries(c, b)| ==> Rightly(Entries(c, b)[k], c, b)
  {
    CurrentEntryAt(c, b);
    RemovedEntriesAre(Ids(c), b);
    var cs, rs := CurrentEntries(c, b), RemovedEntries(Ids(c), b);
    forall k | 0 <= k < |rs|
      ensures Rightly(rs[k], c, b)
    {
    }
    hide CurrentEntries, RemovedEntries, Classify, DistinctEntries, Rightly, DistinctIds, Ids;
    forall k | 0 <= k < |cs + rs|
      ensures Rightly((cs + rs)[k], c, b)
    {
      if k < |c| {
        ClassifiesRightly(c, b, k);
      }
    }
  }

  lemma EntriesAreDistinct(c: seq<EntityState>, b: seq<EntityState>)
    requires DistinctIds(c) && DistinctIds(b)
    ensures DistinctEntries(Entries(c, b))
  {
    CurrentEntryAt(c, b);
    RemovedEntriesAre(Ids(c), b);
    var cs, rs := CurrentEntries(c, b), RemovedEntries(Ids(c), b);
    hide CurrentEntries, RemovedEntries, Classify;
    assert DistinctEntries(cs) by {
      forall i, j | 0 <= i < j < |cs|
        ensures cs[i].entityId != cs[j].entityId
      {
        assert c[i].Id() != c[j].Id();
      }
    }
    forall i | 0 <= i < |cs|
      ensures cs[i].entityId in Ids(c)
    {
      assert cs[i].entityId == c[i].Id();
    }
    hide DistinctIds, Ids;
    assert DistinctEntries(cs + rs);
  }

  /** The plan says neither too little nor too much: it has exactly one entry for each
      entity of either snapshot, and an entry is added, removed, changed or unchanged
      exactly when the entity is. */
  lemma PlanIsExact(current: Snapshot, baseline: Snapshot)
    requires DistinctIds(current.entities) && DistinctIds(baseline.entities)
    ensures var plan := PlanOf(current, baseline);
            && DistinctEntries(plan.entries)
            && (forall k :: 0 <= k < |plan.entries| ==> Rightly(plan.entries[k], current.entities, baseline.entities))
            && Covers(plan.entries, Ids(current.entities) + Ids(baseline.entities))
            && plan.added == CountKind(plan.entries, Added) && plan.changed == CountKind(plan.entries, Changed)
            && plan.removed == CountKind(plan.entries, Removed) && plan.same == CountKind(plan.entries, Unchanged)
            && (plan.baselineMatched <==> current.baselineId != 0 && current.baselineId == baseline.snapshotId)
  {
    EntriesAreDistinct(current.entities, baseline.entities);
    EntriesAreRight(current.entities, baseline.entities);
    EntriesCover(current.entities, baseline.entities);
    hide Entries, DistinctEntries, Rightly, Covers, CountKind;
  }

  /** The plan grown by one entry, as the push and the counter bump do it. */
  function Pushed(plan: Plan, entry: Entry): Plan {
    var grown := plan.(entries := plan.entries + [entry]);
    match entry.kind
    case Added => grown.(added := plan.added + 1)
    case Changed => grown.(changed := plan.changed + 1)
    case Removed => grown.(removed := plan.removed + 1)
    case Unchanged => grown.(same := plan.same + 1)
  }

  function PlanWith(current: Snapshot, baseline: Snapshot, entries: seq<Entry>): Plan {
    Plan(current.snapshotId, current.baselineId,
         current.baselineId != 0 && current.baselineId == baseline.snapshotId,
         entries, CountKind(entries, Added), CountKind(entries, Changed),
         CountKind(entries, Removed), CountKind(entries, Unchanged))
  }

  lemma PushedIsPlanWith(current: Snapshot, baseline: Snapshot, entries: seq<Entry>, entry: Entry)
    ensures Pushed(PlanWith(current, baseline, entries), entry) == PlanWith(current, baseline, entries + [entry])
  {
    CountsSnoc(entries, entry);
  }

  method PlanSnapshotDelta(current: Snapshot, baseline: Snapshot) returns (plan: Plan)
    ensures plan == PlanOf(current, baseline)
  {
    plan := Plan(current.snapshotId, current.baselineId,
                 current.baselineId != 0 && current.baselineId == baseline.snapshotId, [], 0, 0, 0, 0);
    var currentIds := {};
    var c, b := current.entities, baseline.entities;
    var i := 0;
    while i < |c|
      invariant i <= |c|
      invariant currentIds == Ids(c[..i])
      invariant plan == PlanWith(current, baseline, CurrentEntries(c[..i], b))
    {
      IdsGrow(c, i);
      CurrentEntriesGrow(c, b, i);
      var entry := Entry(c[i].Id(), Classify(c[i], b));
      PushedIsPlanWith(current, baseline, plan.entries, entry);
      currentIds := currentIds + {entry.entityId};
      plan := Pushed(plan, entry);
      i := i + 1;
    }
    assert c[..|c|] == c;
    ghost var kept := plan.entries;
    assert kept + [] == kept;
    i := 0;
    while i < |b|
      invariant i <= |b|
      invariant plan == PlanWith(current, baseline, kept + RemovedEntries(currentIds, b[..i]))
    {
      RemovedEntriesGrow(kept, currentIds, b, i);
      var id := b[i].Id();
      if id !in currentIds {
        PushedIsPlanWith(current, baseline, plan.entries, Entry(id, Removed));
        plan := Pushed(plan, Entry(id, Removed));
      }
      i := i + 1;
    }
    assert b[..|b|] == b;
  }

  lemma CurrentEntriesGrow(c: seq<EntityState>, b: seq<EntityState>, i: nat)
    requires i < |c|
    ensures CurrentEntries(c[..i + 1], b) == CurrentEntries(c[..i], b) + [Entry(c[i].Id(), Classify(c[i], b))]
  {
    assert c[..i + 1][..i] == c[..i];
  }

  lemma RemovedEntriesGrow(kept: seq<Entry>, currentIds: set<EntityId>, b: seq<EntityState>, i: nat)
    requires i < |b|
    ensures kept + RemovedEntries(currentIds, b[..i + 1])
         == if b[i].Id() in currentIds then kept + RemovedEntries(currentIds, b[..i])
            else kept + RemovedEntries(currentIds, b[..i]) + [Entry(b[i].Id(), Removed)]
  {
    assert b[..i + 1][..i] == b[..i];
    assert RemovedEntries(currentIds, b[..i]) + [] == RemovedEntries(currentIds, b[..i]);
  }

  lemma IdsGrow(entities: seq<EntityState>, i: nat)
    requires i < |entities|
    ensures Ids(entities[..i + 1]) == Ids(entities[..i]) + {entities[i].Id()}
  {
    forall id | id in Ids(entities[..i])
      ensures id in Ids(entities[..i + 1])
    {
      var k :| 0 <= k < i && entities[..i][k].Id() == id;
      assert entities[..i + 1][k].Id() == id;
    }
    forall id | id in Ids(entities[..i + 1])
      ensures id in Ids(entities[..i]) + {entities[i].Id()}
    {
      var k :| 0 <= k < i + 1 && entities[..i + 1][k].Id() == id;
      assert k < i ==> entities[..i][k].Id() == id;
    }
    assert entities[..i + 1][i].Id() == entities[i].Id();
  }
}
