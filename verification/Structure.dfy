/** The shape of every reachable server world: players and arrows, their owners, the
    client index and the lists a running tick keeps. */
module Structure {
  import opened Basics
  import opened Replication
  import opened Events
  import opened Motion
  import opened Simulation

  ghost predicate IsPlayer(w: World, id: EntityId) {
    id in w.entities && w.entities[id].player.Some?
  }

  ghost predicate PlayerShape(config: Config, w: World, id: EntityId, e: Entity) {
    && e.player.Some? && e.weapon.Some? && e.aim.Some? && e.projectile.None?
    && e.weapon.value.weaponType == config.defaultWeapon
    && e.player.value.maxHealth == config.maxHealth
    && e.owner == Some(e.player.value.client)
    && e.player.value.client in w.playerByClient
    && w.playerByClient[e.player.value.client] == id
  }

  ghost predicate ArrowShape(w: World, e: Entity) {
    && e.player.None? && e.weapon.None? && e.aim.None? && e.intent.None? && e.projectile.Some? && e.owner.None?
    && IsPlayer(w, e.projectile.value.owner)
  }

  ghost predicate EntityOk(config: Config, w: World, id: EntityId)
    requires id in w.entities
  {
    && 0 < id < w.nextId
    && (PlayerShape(config, w, id, w.entities[id])
        || (ArrowShape(w, w.entities[id]) && w.entities[id].projectile.value.owner < id))
  }

  ghost predicate IndexOk(w: World) {
    forall c :: c in w.playerByClient ==>
      IsPlayer(w, w.playerByClient[c]) && w.entities[w.playerByClient[c]].player.value.client == c
  }

  ghost predicate ListsOk(config: Config, w: World) {
    && (forall k :: 0 <= k < |w.requests| ==> IsPlayer(w, w.requests[k].owner) && RequestOk(config, w.requests[k]))
    && (forall k :: 0 <= k < |w.doomed| ==> w.doomed[k] < w.nextId && !IsPlayer(w, w.doomed[k]))
  }

  ghost predicate RequestOk(config: Config, r: Request) {
    FindWeapon(config.weapons, config.defaultWeapon) == Some(r.weapon)
  }

  ghost predicate Shaped(config: Config, w: World) {
    && w.nextId > 0
    && (forall id :: id in w.entities ==> EntityOk(config, w, id))
    && IndexOk(w)
    && ListsOk(config, w)
    && |w.playerByClient| <= config.maxPlayers
  }

  // --- updates of one entity ---

  /** The later entity is of the same kind and belongs to the same client or player. */
  ghost predicate SameKind(a: Entity, b: Entity) {
    && b.projectile == a.projectile && b.owner == a.owner
    && b.player.Some? == a.player.Some? && b.weapon.Some? == a.weapon.Some?
    && (a.player.Some? ==>
          b.player.value.client == a.player.value.client && b.player.value.maxHealth == a.player.value.maxHealth)
    && (a.aim.Some? ==> b.aim.Some?)
    && (a.player.None? ==> b.aim == a.aim && b.intent == a.intent)
    && (a.weapon.Some? ==> b.weapon.value.weaponType == a.weapon.value.weaponType)
  }

  lemma EntityOkUnfold(config: Config, w: World, id: EntityId)
    requires Shaped(config, w) && id in w.entities
    ensures EntityOk(config, w, id)
  {
  }

  /** An entity that is left alone stays in shape while players and index entries stay. */
  lemma LeftAloneIsOk(config: Config, w: World, next: World, id: EntityId)
    requires id in w.entities && EntityOk(config, w, id)
    requires id in next.entities && next.entities[id] == w.entities[id]
    requires forall k :: IsPlayer(w, k) ==> IsPlayer(next, k)
    requires forall c :: c in w.playerByClient ==> c in next.playerByClient && next.playerByClient[c] == w.playerByClient[c]
    requires next.nextId >= w.nextId
    ensures EntityOk(config, next, id)
  {
  }

  lemma ChangeKeepsShape(config: Config, w: World, id: EntityId, e: Entity, news: seq<DomainEvent>)
    requires Shaped(config, w) && id in w.entities && SameKind(w.entities[id], e)
    ensures Shaped(config, w.Change(id, e, news))
    ensures forall k :: IsPlayer(w.Change(id, e, news), k) <==> IsPlayer(w, k)
  {
    var next := w.Change(id, e, news);
    assert forall k :: IsPlayer(next, k) <==> IsPlayer(w, k);
    forall k | k in next.entities
      ensures EntityOk(config, next, k)
    {
      assert EntityOk(config, w, k);
    }
  }

  /** What is queued in the lists and elsewhere does not matter to the rest of the shape. */
  lemma ListsKeepShape(config: Config, w: World, next: World)
    requires Shaped(config, w)
    requires next.entities == w.entities && next.nextId == w.nextId && next.playerByClient == w.playerByClient
    requires ListsOk(config, next)
    ensures Shaped(config, next)
  {
    assert forall k :: IsPlayer(next, k) <==> IsPlayer(w, k);
    forall k | k in next.entities
      ensures EntityOk(config, next, k)
    {
      assert EntityOk(config, w, k);
    }
  }

  lemma RespondingSameKind(config: Config, time: Time, e: Entity, frame: InputFrame)
    requires e.player.Some?
    ensures SameKind(e, Responding(config, time, e, frame))
  {
  }

  lemma InputKeepsShape(config: Config, w: World, input: Input)
    requires Shaped(config, w)
    ensures Shaped(config, ApplyInput(config, w, input))
  {
    if input.client in w.playerByClient {
      var id := w.playerByClient[input.client];
      assert IsPlayer(w, id);
      var e := w.entities[id];
      hide Shaped, Responding, WarmupEvents, SameKind;
      if !e.Defeated() {
        RespondingSameKind(config, w.time, e, input.frame);
        ChangeKeepsShape(config, w, id, Responding(config, w.time, e, input.frame), WarmupEvents(config, w.time, id, e, input.frame));
      }
    }
  }

  lemma SteppedSameKind(rules: Rules, e: Entity)
    ensures SameKind(e, Stepped(rules, e))
  {
  }

  lemma IntegrateKeepsShape(config: Config, w: World, id: EntityId)
    requires Shaped(config, w)
    ensures Shaped(config, Integrate(config, w, id))
  {
    hide Shaped, Stepped, MoveEvents, SameKind;
    if id in w.entities {
      var e := w.entities[id];
      var next := Stepped(config.rules, e);
      SteppedSameKind(config.rules, e);
      ChangeKeepsShape(config, w, id, next, MoveEvents(id, e, next.body));
    }
  }

  lemma ClearIntentsKeepsShape(config: Config, w: World)
    requires Shaped(config, w)
    ensures Shaped(config, ClearIntents(w))
  {
    var next := ClearIntents(w);
    assert forall k :: IsPlayer(next, k) <==> IsPlayer(w, k);
    forall id | id in next.entities
      ensures EntityOk(config, next, id)
    {
      assert EntityOk(config, w, id);
    }
  }

  lemma CooledSameKind(e: Entity, time: Time)
    ensures SameKind(e, Cooled(e, time))
  {
  }

  lemma WarmKeepsShape(config: Config, w: World, id: EntityId)
    requires Shaped(config, w)
    ensures Shaped(config, Warm(config, w, id))
  {
    if id in w.entities && w.entities[id].weapon.Some? && w.entities[id].aim.Some? {
      var e := w.entities[id];
      EntityOkUnfold(config, w, id);
      CooledSameKind(e, w.time);
      var changed := w.Change(id, Cooled(e, w.time), FireEvents(config, id, e, w.time));
      ChangeKeepsShape(config, w, id, Cooled(e, w.time), FireEvents(config, id, e, w.time));
      RequestsAreOk(config, w, id);
      hide Cooled, FireEvents, FireRequests, EntityOk, SameKind, RequestOk;
      ListsKeepShape(config, changed, Warm(config, w, id));
    }
  }

  lemma RequestsAreOk(config: Config, w: World, id: EntityId)
    requires id in w.entities && PlayerShape(config, w, id, w.entities[id])
    ensures var rs := FireRequests(config, id, w.entities[id], w.time);
            forall k :: 0 <= k < |rs| ==> rs[k].owner == id && RequestOk(config, rs[k])
  {
  }

  /** A new entity under the next id. */
  lemma CreateKeepsShape(config: Config, w: World, e: Entity, news: seq<DomainEvent>, next: World)
    requires Shaped(config, w)
    requires next.entities == w.entities[w.nextId := e] && next.nextId == w.nextId + 1
    requires next.playerByClient.Keys >= w.playerByClient.Keys
    requires forall c :: c in w.playerByClient ==> next.playerByClient[c] == w.playerByClient[c]
    requires PlayerShape(config, next, w.nextId, e) || ArrowShape(w, e)
    requires ListsOk(config, w) ==> ListsOk(config, next)
    requires IndexOk(w) ==> IndexOk(next)
    requires |next.playerByClient| <= config.maxPlayers
    ensures Shaped(config, next)
  {
    NewIdIsFree(config, w);
    assert forall k :: IsPlayer(w, k) ==> IsPlayer(next, k);
    assert EntityOk(config, next, w.nextId);
    hide EntityOk, IndexOk, ListsOk;
    forall id | id in next.entities
      ensures EntityOk(config, next, id)
    {
      if id != w.nextId {
        LeftAloneIsOk(config, w, next, id);
      }
    }
  }

  lemma LaunchKeepsShape(config: Config, w: World)
    requires Shaped(config, w)
    ensures Shaped(config, Launch(w))
  {
    if w.requests != [] {
      var next := Launch(w);
      assert IsPlayer(w, w.requests[0].owner);
      assert ArrowShape(w, Arrow(w.time, w.requests[0]));
      NewIdIsFree(config, w);
      hide Arrow;
      assert forall k :: IsPlayer(w, k) ==> IsPlayer(next, k);
      assert ListsOk(config, next);
      CreateKeepsShape(config, w, Arrow(w.time, w.requests[0]), [], next);
    }
  }

  lemma NewIdIsFree(config: Config, w: World)
    requires Shaped(config, w)
    ensures w.nextId !in w.entities
    ensures forall c :: c in w.playerByClient ==> w.playerByClient[c] in w.entities
  {
    assert w.nextId in w.entities ==> EntityOk(config, w, w.nextId);
  }

  lemma HurtSameKind(config: Config, time: Time, source: Projectile, e: Entity)
    ensures SameKind(e, Hurt(config, time, source, e))
  {
  }

  lemma StrikeKeepsShape(config: Config, w: World, projectile: EntityId, source: Projectile, target: EntityId)
    requires Shaped(config, w) && target in w.entities && !IsPlayer(w, projectile) && projectile < w.nextId
    ensures Shaped(config, Strike(config, w, projectile, source, target))
  {
    var e := w.entities[target];
    HurtSameKind(config, w.time, source, e);
    var news := HurtEvents(config, w.time, projectile, source, target, e);
    var changed := w.Change(target, Hurt(config, w.time, source, e), news);
    ChangeKeepsShape(config, w, target, Hurt(config, w.time, source, e), news);
    hide Hurt, HurtEvents, Shaped, IsPlayer, SameKind;
    DoomKeepsShape(config, changed, projectile);
    assert Strike(config, w, projectile, source, target) == changed.(doomed := changed.doomed + [projectile]);
  }

  lemma DoomKeepsShape(config: Config, w: World, id: EntityId)
    requires Shaped(config, w) && !IsPlayer(w, id) && id < w.nextId
    ensures Shaped(config, w.(doomed := w.doomed + [id]))
  {
    hide EntityOk, RequestOk;
    ListsKeepShape(config, w, w.(doomed := w.doomed + [id]));
  }

  lemma FlownKeepsShape(config: Config, w: World, id: EntityId)
    requires Shaped(config, w) && id in w.entities && w.entities[id].projectile.Some?
    ensures var e := w.entities[id];
            var flown := w.Change(id, e.(body := Drifted(config.rules.tickMs, e.body)), []);
            Shaped(config, flown) && !IsPlayer(flown, id) && id < flown.nextId
  {
    EntityOkUnfold(config, w, id);
    var e := w.entities[id];
    ChangeKeepsShape(config, w, id, e.(body := Drifted(config.rules.tickMs, e.body)), []);
  }

  lemma FlyKeepsShape(config: Config, order: Order, w: World, id: EntityId)
    requires Shaped(config, w)
    ensures Shaped(config, Fly(config, order, w, id))
  {
    hide Shaped, CloseEnough, Drifted, Strike, IsPlayer, FirstHit;
    if id in w.entities && w.entities[id].projectile.Some? {
      var e := w.entities[id];
      var body := Drifted(config.rules.tickMs, e.body);
      var flown := w.Change(id, e.(body := body), []);
      FlownKeepsShape(config, w, id);
      if w.time >= e.projectile.value.expiresAt || OffMap(config, body) {
        DoomKeepsShape(config, flown, id);
      } else {
        var hit := FirstHit(flown, e.projectile.value.owner, body, order(w.tick, 4 + id, Players(flown)));
        if hit.Some? {
          StrikeKeepsShape(config, flown, id, e.projectile.value, hit.value);
        }
      }
    }
  }

  lemma DestroyKeepsPlayers(config: Config, w: World)
    requires Shaped(config, w) && w.doomed != []
    ensures forall id :: IsPlayer(Destroy(w), id) <==> IsPlayer(w, id)
    ensures forall id :: IsPlayer(w, id) ==> Destroy(w).entities[id] == w.entities[id]
  {
    assert !IsPlayer(w, w.doomed[0]);
  }

  lemma DestroyKeepsLists(config: Config, w: World)
    requires Shaped(config, w) && w.doomed != []
    ensures ListsOk(config, Destroy(w)) && IndexOk(Destroy(w))
  {
    DestroyKeepsPlayers(config, w);
    hide IsPlayer, EntityOk, RequestOk;
  }

  lemma DestroyKeepsShape(config: Config, w: World)
    requires Shaped(config, w)
    ensures Shaped(config, Destroy(w))
  {
    if w.doomed != [] {
      var next := Destroy(w);
      DestroyKeepsPlayers(config, w);
      DestroyKeepsLists(config, w);
      hide EntityOk, RequestOk, ListsOk, IndexOk, IsPlayer;
      forall id | id in next.entities
        ensures EntityOk(config, next, id)
      {
        EntityOkUnfold(config, w, id);
        LeftAloneIsOk(config, w, next, id);
      }
    }
  }

  lemma RevivedSameKind(config: Config, e: Entity)
    requires e.player.Some?
    ensures SameKind(e, Revived(config, e))
  {
  }

  lemma RespawnKeepsShape(config: Config, w: World, id: EntityId)
    requires Shaped(config, w)
    ensures Shaped(config, Respawn(config, w, id))
  {
    hide Shaped, Revived, SameKind;
    if id in w.entities && w.entities[id].Defeated() && w.time >= w.entities[id].player.value.respawnAt {
      var e := Revived(config, w.entities[id]);
      RevivedSameKind(config, w.entities[id]);
      ChangeKeepsShape(config, w, id, e, [PlayerRespawned(id, e.body.x, e.body.y)]);
    }
  }

  lemma DoKeepsShape(config: Config, order: Order, w: World, op: Op)
    requires Shaped(config, w)
    ensures Shaped(config, Do(config, order, w, op))
  {
    match op {
      case DoInput(input) => InputKeepsShape(config, w, input);
      case DoClearPending => ListsKeepShape(config, w, w.(pending := []));
      case DoIntegrate(id) => IntegrateKeepsShape(config, w, id);
      case DoClearIntents => ClearIntentsKeepsShape(config, w);
      case DoWarm(id) => WarmKeepsShape(config, w, id);
      case DoLaunch => LaunchKeepsShape(config, w);
      case DoFly(id) => FlyKeepsShape(config, order, w, id);
      case DoDestroy => DestroyKeepsShape(config, w);
      case DoRespawn(id) => RespawnKeepsShape(config, w, id);
    }
  }

  lemma LoginKeepsShape(config: Config, w: World, client: ClientId, sequence: Sequence)
    requires Shaped(config, w)
    ensures Shaped(config, Login(config, w, client, sequence))
  {
    var next := Login(config, w, client, sequence);
    if client !in w.playerByClient && |w.playerByClient| < config.maxPlayers {
      NewIdIsFree(config, w);
      hide Spawn;
      assert forall k :: IsPlayer(next, k) <==> IsPlayer(w, k) || k == w.nextId;
      CreateKeepsShape(config, w, NewPlayer(config, client), [], next);
    }
  }

  lemma ExecUnfold(config: Config, order: Order, w: World, ops: seq<Op>, n: nat)
    requires n <= |ops|
    ensures Exec(config, order, w, ops, n)
         == if n == 0 then w else Do(config, order, Exec(config, order, w, ops, n - 1), ops[n - 1])
  {
  }

  lemma {:induction false} ExecKeepsShape(config: Config, order: Order, w: World, ops: seq<Op>, n: nat)
    requires Shaped(config, w) && n <= |ops|
    ensures Shaped(config, Exec(config, order, w, ops, n))
  {
    hide *;
    ExecUnfold(config, order, w, ops, n);
    if n > 0 {
      ExecKeepsShape(config, order, w, ops, n - 1);
      DoKeepsShape(config, order, Exec(config, order, w, ops, n - 1), ops[n - 1]);
    }
  }

  lemma {:induction false} ExecAppend(config: Config, order: Order, w: World, a: seq<Op>, b: seq<Op>, n: nat)
    requires n <= |b|
    ensures Exec(config, order, w, a + b, |a| + n) == Exec(config, order, Pass(config, order, w, a), b, n)
  {
    if n > 0 {
      ExecAppend(config, order, w, a, b, n - 1);
      assert (a + b)[|a| + n - 1] == b[n - 1];
    } else {
      ExecPrefix(config, order, w, a, b, |a|);
    }
    hide Do;
  }

  lemma {:induction false} ExecPrefix(config: Config, order: Order, w: World, a: seq<Op>, b: seq<Op>, n: nat)
    requires n <= |a|
    ensures Exec(config, order, w, a + b, n) == Exec(config, order, w, a, n)
  {
    hide Do;
    if n > 0 {
      ExecPrefix(config, order, w, a, b, n - 1);
    }
  }

  lemma PassAppend(config: Config, order: Order, w: World, a: seq<Op>, b: seq<Op>)
    ensures Pass(config, order, w, a + b) == Pass(config, order, Pass(config, order, w, a), b)
  {
    ExecAppend(config, order, w, a, b, |b|);
  }

  lemma TickUnfold(config: Config, order: Order, w: World)
    ensures TickFixed(config, order, w)
         == ProcessRespawns(config, order, ProcessProjectiles(config, order,
              ProcessWeaponWarmups(config, order, ProcessInputs(config, order, Advance(config, w)))))
  {
  }

  /** All the operations of one tick, in the order in which they happen. */
  function TickOps(config: Config, order: Order, w: World): seq<Op> {
    var start := Advance(config, w);
    var applied := Pass(config, order, start, InputOps(start));
    var moved := Pass(config, order, applied, MoveOps(order, applied));
    var warmed := Pass(config, order, moved, WarmOps(order, moved));
    var fired := Pass(config, order, warmed, LaunchOps(warmed));
    var flown := Pass(config, order, fired, FlyOps(order, fired));
    var landed := Pass(config, order, flown, DestroyOps(flown));
    InputOps(start) + MoveOps(order, applied) + WarmOps(order, moved) + LaunchOps(warmed)
    + FlyOps(order, fired) + DestroyOps(flown) + RespawnOps(order, landed)
  }

  lemma TickIsOps(config: Config, order: Order, w: World)
    ensures TickFixed(config, order, w) == Pass(config, order, Advance(config, w), TickOps(config, order, w))
  {
    hide Pass, InputOps, MoveOps, WarmOps, LaunchOps, FlyOps, DestroyOps, RespawnOps, Advance;
    var start := Advance(config, w);
    var applied := Pass(config, order, start, InputOps(start));
    var moved := Pass(config, order, applied, MoveOps(order, applied));
    var warmed := Pass(config, order, moved, WarmOps(order, moved));
    var fired := Pass(config, order, warmed, LaunchOps(warmed));
    var flown := Pass(config, order, fired, FlyOps(order, fired));
    var landed := Pass(config, order, flown, DestroyOps(flown));
    var ops2 := InputOps(start) + MoveOps(order, applied);
    var ops3 := ops2 + WarmOps(order, moved);
    var ops4 := ops3 + LaunchOps(warmed);
    var ops5 := ops4 + FlyOps(order, fired);
    var ops6 := ops5 + DestroyOps(flown);
    PassAppend(config, order, start, InputOps(start), MoveOps(order, applied));
    PassAppend(config, order, start, ops2, WarmOps(order, moved));
    PassAppend(config, order, start, ops3, LaunchOps(warmed));
    PassAppend(config, order, start, ops4, FlyOps(order, fired));
    PassAppend(config, order, start, ops5, DestroyOps(flown));
    PassAppend(config, order, start, ops6, RespawnOps(order, landed));
  }
}
