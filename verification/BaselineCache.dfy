/** The bounded per-client cache of sent snapshots
    (GameLogic/src/SnapshotBaselineCache.cpp). */
module BaselineCache {
  import opened Basics
  import opened Replication

  type Cache = map<ClientId, seq<Snapshot>>

  function Entries(cache: Cache, client: ClientId): seq<Snapshot> {
    if client in cache then cache[client] else []
  }

  /** The newest `max` snapshots. */
  function Newest(snapshots: seq<Snapshot>, max: nat): seq<Snapshot> {
    if |snapshots| <= max then snapshots else snapshots[|snapshots| - max..]
  }

  function Stored(cache: Cache, client: ClientId, snapshot: Snapshot, max: nat): Cache {
    cache[client := Newest(Entries(cache, client) + [snapshot], max)]
  }

  function FirstWithId(snapshots: seq<Snapshot>, id: SnapshotId): (found: Option<Snapshot>)
    ensures found.None? ==> forall s :: s in snapshots ==> s.snapshotId != id
    ensures found.Some? ==> found.value in snapshots && found.value.snapshotId == id
  {
    if snapshots == [] then None
    else if snapshots[0].snapshotId == id then Some(snapshots[0])
    else FirstWithId(snapshots[1..], id)
  }

  function Lookup(cache: Cache, client: ClientId, id: SnapshotId): Option<Snapshot> {
    FirstWithId(Entries(cache, client), id)
  }

  datatype Decision = Decision(
    requested: SnapshotId, effective: SnapshotId, deliveryKind: DeliveryKind, available: bool)

  function Decide(cache: Cache, client: ClientId, requested: SnapshotId): Decision {
    if requested != 0 && Lookup(cache, client, requested).Some?
    then Decision(requested, requested, DeltaEligible, true)
    else Decision(requested, 0, Full, false)
  }

  /** All snapshots of a history stored one after another for one client. */
  function StoredAll(cache: Cache, client: ClientId, history: seq<Snapshot>, max: nat): Cache {
    if history == [] then cache
    else Stored(StoredAll(cache, client, history[..|history| - 1], max), client, history[|history| - 1], max)
  }

  lemma NewestSnoc(front: seq<Snapshot>, last: Snapshot, max: nat)
    ensures Newest(Newest(front, max) + [last], max) == Newest(front + [last], max)
  {
  }

  /** Whatever was stored before, the cache holds exactly the newest `max` stored
      snapshots in the order they were stored: eviction only forgets the oldest. */
  lemma {:induction false} CacheHoldsNewest(client: ClientId, history: seq<Snapshot>, max: nat)
    ensures Entries(StoredAll(map[], client, history, max), client) == Newest(history, max)
  {
    if history != [] {
      var front := history[..|history| - 1];
      CacheHoldsNewest(client, front, max);
      NewestSnoc(front, history[|history| - 1], max);
      assert history == front + [history[|history| - 1]];
    }
  }

  /** Other clients' baselines are untouched by a store. */
  lemma StoreIsPerClient(cache: Cache, client: ClientId, other: ClientId, snapshot: Snapshot, max: nat, id: SnapshotId)
    requires other != client
    ensures Lookup(Stored(cache, client, snapshot, max), other, id) == Lookup(cache, other, id)
  {
  }

  class SnapshotBaselineCache {
    const maxBaselines: nat
    var baselines: map<ClientId, seq<Snapshot>>

    constructor (maxBaselines: nat)
      ensures this.maxBaselines == maxBaselines && baselines == map[]
    {
      this.maxBaselines := maxBaselines;
      baselines := map[];
    }

    method Store(client: ClientId, snapshot: Snapshot)
      modifies this
      ensures baselines == Stored(old(baselines), client, snapshot, maxBaselines)
    {
      var kept := (if client in baselines then baselines[client] else []) + [snapshot];
      ghost var pushed := kept;
      while |kept| > maxBaselines
        invariant |kept| <= |pushed|
        invariant |kept| < |pushed| ==> |kept| >= maxBaselines
        invariant kept == pushed[|pushed| - |kept|..]
      {
        kept := kept[1..];
      }
      baselines := baselines[client := kept];
    }

    method Find(client: ClientId, id: SnapshotId) returns (found: Option<Snapshot>)
      ensures found == Lookup(baselines, client, id)
    {
      if client !in baselines {
        return None;
      }
      var entries := baselines[client];
      var i := 0;
      while i < |entries|
        invariant i <= |entries|
        invariant FirstWithId(entries, id) == FirstWithId(entries[i..], id)
      {
        if entries[i].snapshotId == id {
          return Some(entries[i]);
        }
        i := i + 1;
      }
      return None;
    }

    method DecideBaseline(client: ClientId, requested: SnapshotId) returns (decision: Decision)
      ensures decision == Decide(baselines, client, requested)
    {
      decision := Decision(requested, 0, Full, false);
      if requested == 0 {
        return;
      }
      var baseline := Find(client, requested);
      if baseline.None? {
        return;
      }
      decision := Decision(requested, requested, DeltaEligible, true);
    }
  }
}
