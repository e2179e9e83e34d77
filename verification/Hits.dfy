/** Identities and hits over whole runs: ids are never used twice, a projectile confirms at
    most one hit, and never on the player who shot it. */
module Hits {
  import opened Basics
  import opened Replication
  import opened Events
  import opened Motion
  import opened Simulation
  import opened Structure

  /** The id an event brings into the world. */
  function Born(event: DomainEvent): Option<EntityId> {
    match event
    case PlayerSpawned(id, _, _, _) => Some(id)
    case ProjectileSpawned(id, _, _, _, _) => Some(id)
    case _ => None
  }

  ghost predicate ShotBy(journal: seq<DomainEvent>, projectile: EntityId, owner: EntityId) {
    exists k: nat :: k < |journal| && journal[k].ProjectileSpawned? && journal[k].projectileId == projectile && journal[k].ownerId == owner
  }

  ghost predicate IdsOnce(journal: seq<DomainEvent>, nextId: EntityId) {
    && (forall i: nat :: i < |journal| && Born(journal[i]).Some? ==> Born(journal[i]).value < nextId)
    && (forall i: nat, j: nat :: i < j < |journal| && Born(journal[i]).Some? && Born(journal[j]).Some? ==>
          Born(journal[i]).value < Born(journal[j]).value)
  }

  ghost predicate OneHitEach(journal: seq<DomainEvent>) {
    forall i: nat, j: nat :: i < j < |journal| && journal[i].HitConfirmed? && journal[j].HitConfirmed? ==>
      journal[i].projectileId != journal[j].projectileId
  }

  ghost predicate HitsAreFair(journal: seq<DomainEvent>) {
    forall i: nat :: i < |journal| && journal[i].HitConfirmed? ==>
      journal[i].targetId != journal[i].attackerId && ShotBy(journal, journal[i].projectileId, journal[i].attackerId)
  }

  /** A projectile that has hit is gone or about to be destroyed. */
  ghost predicate SpentAreDoomed(journal: seq<DomainEvent>, w: World) {
    forall i: nat :: i < |journal| && journal[i].HitConfirmed? ==>
      journal[i].projectileId < w.nextId && (journal[i].projectileId in w.entities ==> journal[i].projectileId in w.doomed)
  }

  ghost predicate ArrowsAreRecorded(journal: seq<DomainEvent>, w: World) {
    forall id :: id in Projectiles(w) ==> ShotBy(journal, id, w.entities[id].projectile.value.owner)
  }

  ghost predicate Fair(past: seq<DomainEvent>, w: World) {
    var journal := past + w.events;
    && IdsOnce(journal, w.nextId)
    && OneHitEach(journal)
    && HitsAreFair(journal)
    && SpentAreDoomed(journal, w)
    && ArrowsAreRecorded(journal, w)
  }

  // --- steps that neither create nor hit ---

  ghost predicate Dull(event: DomainEvent) {
    Born(event).None? && !event.HitConfirmed?
  }

  ghost predicate FewerArrows(w: World, next: World) {
    && next.nextId == w.nextId
    && (forall id :: id in Projectiles(next) ==>
          id in Projectiles(w) && next.entities[id].projectile == w.entities[id].projectile)
    && (forall id :: id in next.entities ==> id in w.entities)
    && (forall id :: id in w.doomed && id in next.entities ==> id in next.doomed)
  }

  lemma ShotByGrows(journal: seq<DomainEvent>, news: seq<DomainEvent>, projectile: EntityId, owner: EntityId)
    requires ShotBy(journal, projectile, owner)
    ensures ShotBy(journal + news, projectile, owner)
  {
    var k: nat :| k < |journal| && journal[k].ProjectileSpawned? && journal[k].projectileId == projectile && journal[k].ownerId == owner;
    assert (journal + news)[k] == journal[k];
  }

  lemma HitsStayFair(journal: seq<DomainEvent>, news: seq<DomainEvent>)
    requires HitsAreFair(journal)
    requires forall k: nat :: k < |news| && news[k].HitConfirmed? ==>
               news[k].targetId != news[k].attackerId && ShotBy(journal, news[k].projectileId, news[k].attackerId)
    ensures HitsAreFair(journal + news)
  {
    var all := journal + news;
    forall i: nat | i < |all| && all[i].HitConfirmed?
      ensures all[i].targetId != all[i].attackerId && ShotBy(all, all[i].projectileId, all[i].attackerId)
    {
      if i < |journal| {
        assert journal[i] == all[i];
      } else {
        assert news[i - |journal|] == all[i];
      }
      ShotByGrows(journal, news, all[i].projectileId, all[i].attackerId);
    }
  }

  lemma DullStepIsFair(past: seq<DomainEvent>, w: World, next: World, news: seq<DomainEvent>)
    requires Fair(past, w) && FewerArrows(w, next) && next.events == w.events + news
    requires forall k :: 0 <= k < |news| ==> Dull(news[k])
    ensures Fair(past, next)
  {
    var journal := past + w.events;
    var all := past + next.events;
    assert all == journal + news;
    HitsStayFair(journal, news);
    assert forall i: nat :: i < |journal| ==> all[i] == journal[i];
    assert forall i: nat :: |journal| <= i < |all| ==> Dull(all[i]);
    DullKeepsIds(journal, news, w.nextId);
    DullKeepsHits(journal, news);
    forall id | id in Projectiles(next)
      ensures ShotBy(all, id, next.entities[id].projectile.value.owner)
    {
      ShotByGrows(journal, news, id, w.entities[id].projectile.value.owner);
    }
    hide HitsAreFair, IdsOnce, OneHitEach, ShotBy;
  }

  lemma DullKeepsIds(journal: seq<DomainEvent>, news: seq<DomainEvent>, nextId: EntityId)
    requires IdsOnce(journal, nextId)
    requires forall k :: 0 <= k < |news| ==> Dull(news[k])
    ensures IdsOnce(journal + news, nextId)
  {
    assert forall i: nat :: |journal| <= i < |journal + news| ==> (journal + news)[i] == news[i - |journal|];
  }

  lemma DullKeepsHits(journal: seq<DomainEvent>, news: seq<DomainEvent>)
    requires OneHitEach(journal)
    requires forall k :: 0 <= k < |news| ==> Dull(news[k])
    ensures OneHitEach(journal + news)
  {
    assert forall i: nat :: |journal| <= i < |journal + news| ==> (journal + news)[i] == news[i - |journal|];
  }

  // --- creation ---

  lemma CreationIsFair(past: seq<DomainEvent>, w: World, next: World, e: Entity, event: DomainEvent)
    requires Fair(past, w) && w.nextId !in w.entities && next.nextId == w.nextId + 1
    requires next.entities == w.entities[w.nextId := e]
    requires next.doomed == w.doomed && next.events == w.events + [event]
    requires Born(event) == Some(w.nextId)
    requires e.projectile.Some? ==> event.ProjectileSpawned? && event.ownerId == e.projectile.value.owner
    ensures Fair(past, next)
  {
    var journal := past + w.events;
    var all := past + next.events;
    assert all == journal + [event];
    assert all[|journal|] == event;
    HitsStayFair(journal, [event]);
    assert forall i: nat :: i < |journal| ==> all[i] == journal[i];
    assert IdsOnce(all, next.nextId);
    forall id | id in Projectiles(next)
      ensures ShotBy(all, id, next.entities[id].projectile.value.owner)
    {
      if id != w.nextId {
        ShotByGrows(journal, [event], id, w.entities[id].projectile.value.owner);
      }
    }
  }

  // --- the operations ---

  lemma RespondingIsDull(config: Config, time: Time, id: EntityId, e: Entity, frame: InputFrame)
    ensures Responding(config, time, e, frame).projectile == e.projectile
    ensures forall k :: 0 <= k < |WarmupEvents(config, time, id, e, frame)| ==> Dull(WarmupEvents(config, time, id, e, frame)[k])
  {
  }

  lemma ChangeIsFair(past: seq<DomainEvent>, w: World, id: EntityId, e: Entity, news: seq<DomainEvent>)
    requires Fair(past, w) && id in w.entities && e.projectile == w.entities[id].projectile
    requires forall k :: 0 <= k < |news| ==> Dull(news[k])
    ensures Fair(past, w.Change(id, e, news))
  {
    var next := w.Change(id, e, news);
    assert FewerArrows(w, next);
    hide Fair, FewerArrows;
    DullStepIsFair(past, w, next, news);
  }

  lemma QuietIsFair(past: seq<DomainEvent>, w: World, next: World)
    requires Fair(past, w) && FewerArrows(w, next) && next.events == w.events
    ensures Fair(past, next)
  {
    assert next.events == w.events + [];
    hide Fair, FewerArrows;
    DullStepIsFair(past, w, next, []);
  }

  lemma InputIsFair(config: Config, past: seq<DomainEvent>, w: World, input: Input)
    requires Fair(past, w)
    ensures Fair(past, ApplyInput(config, w, input))
  {
    hide Fair;
    if input.client in w.playerByClient && w.playerByClient[input.client] in w.entities {
      var id := w.playerByClient[input.client];
      var e := w.entities[id];
      RespondingIsDull(config, w.time, id, e, input.frame);
      hide Responding, WarmupEvents, Dull;
      if !e.Defeated() {
        ChangeIsFair(past, w, id, Responding(config, w.time, e, input.frame), WarmupEvents(config, w.time, id, e, input.frame));
      }
    }
  }

  lemma IntegrateIsFair(config: Config, past: seq<DomainEvent>, w: World, id: EntityId)
    requires Fair(past, w)
    ensures Fair(past, Integrate(config, w, id))
  {
    hide Fair;
    if id in w.entities {
      var e := w.entities[id];
      var next := Stepped(config.rules, e);
      assert next.projectile == e.projectile;
      hide Stepped;
      ChangeIsFair(past, w, id, next, MoveEvents(id, e, next.body));
    }
  }

  lemma WarmIsFair(config: Config, past: seq<DomainEvent>, w: World, id: EntityId)
    requires Fair(past, w)
    ensures Fair(past, Warm(config, w, id))
  {
    hide Fair;
    if id in w.entities {
      var e := w.entities[id];
      assert Cooled(e, w.time).projectile == e.projectile;
      assert forall k :: 0 <= k < |FireEvents(config, id, e, w.time)| ==> Dull(FireEvents(config, id, e, w.time)[k]);
      hide Cooled, FireEvents, FireRequests, Dull;
      var changed := w.Change(id, Cooled(e, w.time), FireEvents(config, id, e, w.time));
      ChangeIsFair(past, w, id, Cooled(e, w.time), FireEvents(config, id, e, w.time));
      QuietIsFair(past, changed, changed.(requests := w.requests + FireRequests(config, id, e, w.time)));
    }
  }

  lemma LaunchIsFair(config: Config, past: seq<DomainEvent>, w: World)
    requires Shaped(config, w) && Fair(past, w)
    ensures Fair(past, Launch(w))
  {
    if w.requests != [] {
      NewIdIsFree(config, w);
      hide Shaped, Fair;
      var r := w.requests[0];
      CreationIsFair(past, w, Launch(w), Arrow(w.time, r), ProjectileSpawned(w.nextId, r.owner, r.x, r.y, r.weapon.weaponType));
    }
  }

  lemma HurtKeepsProjectile(config: Config, time: Time, source: Projectile, e: Entity)
    ensures Hurt(config, time, source, e).projectile == e.projectile
  {
  }

  lemma HurtEventsAre(config: Config, time: Time, projectile: EntityId, source: Projectile, target: EntityId, e: Entity)
    requires e.player.Some?
    ensures var news := HurtEvents(config, time, projectile, source, target, e);
            && news != [] && news[0] == HitConfirmed(source.owner, target, projectile, time)
            && (forall k :: 1 <= k < |news| ==> Dull(news[k]))
  {
  }

  lemma StrikeIsFair(config: Config, past: seq<DomainEvent>, w: World, projectile: EntityId, source: Projectile, target: EntityId)
    requires Fair(past, w) && target in w.entities && w.entities[target].player.Some? && target != source.owner
    requires projectile in w.entities && w.entities[projectile].projectile == Some(source)
    requires projectile !in w.doomed && projectile < w.nextId
    ensures Fair(past, Strike(config, w, projectile, source, target))
  {
    var e := w.entities[target];
    var news := HurtEvents(config, w.time, projectile, source, target, e);
    var next := Strike(config, w, projectile, source, target);
    HurtKeepsProjectile(config, w.time, source, e);
    HurtEventsAre(config, w.time, projectile, source, target, e);
    hide Hurt, HurtEvents;
    var journal := past + w.events;
    var all := past + next.events;
    assert all == journal + news;
    assert projectile in Projectiles(w);
    HitsStayFair(journal, news);
    StrikeKeepsIds(journal, news, w.nextId);
    StrikeKeepsHits(journal, w, news);
    assert FewerArrows(w, next);
    StrikeKeepsSpent(journal, w, news, next);
    forall id | id in Projectiles(next)
      ensures ShotBy(all, id, next.entities[id].projectile.value.owner)
    {
      ShotByGrows(journal, news, id, w.entities[id].projectile.value.owner);
    }
    hide HitsAreFair, IdsOnce, OneHitEach, ShotBy, SpentAreDoomed;
  }

  lemma StrikeKeepsIds(journal: seq<DomainEvent>, news: seq<DomainEvent>, nextId: EntityId)
    requires IdsOnce(journal, nextId)
    requires forall k :: 0 <= k < |news| ==> Born(news[k]).None?
    ensures IdsOnce(journal + news, nextId)
  {
    assert forall i: nat :: |journal| <= i < |journal + news| ==> (journal + news)[i] == news[i - |journal|];
  }

  lemma StrikeKeepsHits(journal: seq<DomainEvent>, w: World, news: seq<DomainEvent>)
    requires OneHitEach(journal) && SpentAreDoomed(journal, w)
    requires news != [] && news[0].HitConfirmed? && (forall k :: 1 <= k < |news| ==> !news[k].HitConfirmed?)
    requires news[0].projectileId in w.entities && news[0].projectileId !in w.doomed
    ensures OneHitEach(journal + news)
  {
    assert forall i: nat :: |journal| <= i < |journal + news| ==> (journal + news)[i] == news[i - |journal|];
  }

  lemma StrikeKeepsSpent(journal: seq<DomainEvent>, w: World, news: seq<DomainEvent>, next: World)
    requires SpentAreDoomed(journal, w) && FewerArrows(w, next)
    requires news != [] && news[0].HitConfirmed? && (forall k :: 1 <= k < |news| ==> !news[k].HitConfirmed?)
    requires news[0].projectileId < w.nextId && news[0].projectileId in next.doomed
    ensures SpentAreDoomed(journal + news, next)
  {
    var all := journal + news;
    forall i: nat | i < |all| && all[i].HitConfirmed?
      ensures all[i].projectileId < next.nextId && (all[i].projectileId in next.entities ==> all[i].projectileId in next.doomed)
    {
      if i < |journal| {
        assert journal[i] == all[i];
      } else {
        assert news[i - |journal|] == all[i];
      }
    }
  }

  lemma FlyIsFair(config: Config, order: Order, past: seq<DomainEvent>, w: World, id: EntityId)
    requires Shaped(config, w) && Fair(past, w) && id !in w.doomed
    ensures Fair(past, Fly(config, order, w, id))
  {
    if id in w.entities && w.entities[id].projectile.Some? {
      EntityOkUnfold(config, w, id);
      var e := w.entities[id];
      var body := Drifted(config.rules.tickMs, e.body);
      var flown := w.Change(id, e.(body := body), []);
      hide Shaped, Fair, CloseEnough, Drifted, Strike, FirstHit;
      ChangeIsFair(past, w, id, e.(body := body), []);
      QuietIsFair(past, flown, flown.(doomed := flown.doomed + [id]));
      var hit := FirstHit(flown, e.projectile.value.owner, body, order(w.tick, 4 + id, Players(flown)));
      if hit.Some? {
        StrikeIsFair(config, past, flown, id, e.projectile.value, hit.value);
      }
    }
  }

  lemma DestroyIsFair(past: seq<DomainEvent>, w: World)
    requires Fair(past, w)
    ensures Fair(past, Destroy(w))
  {
    if w.doomed != [] {
      hide Fair;
      assert FewerArrows(w, Destroy(w));
      QuietIsFair(past, w, Destroy(w));
    }
  }

  lemma RespawnIsFair(config: Config, past: seq<DomainEvent>, w: World, id: EntityId)
    requires Fair(past, w)
    ensures Fair(past, Respawn(config, w, id))
  {
    hide Fair;
    if id in w.entities && w.entities[id].Defeated() && w.time >= w.entities[id].player.value.respawnAt {
      var e := Revived(config, w.entities[id]);
      ChangeIsFair(past, w, id, e, [PlayerRespawned(id, e.body.x, e.body.y)]);
    }
  }

  lemma LoginFacts(config: Config, w: World, client: ClientId, sequence: Sequence)
    requires client !in w.playerByClient && |w.playerByClient| < config.maxPlayers
    ensures var next := Login(config, w, client, sequence);
            var at := Spawn(config, client);
            && next.entities == w.entities[w.nextId := NewPlayer(config, client)]
            && next.nextId == w.nextId + 1 && next.doomed == w.doomed
            && next.events == w.events + [PlayerSpawned(w.nextId, client, at.0, at.1)]
    ensures NewPlayer(config, client).projectile.None?
  {
  }

  lemma LoginIsFair(config: Config, past: seq<DomainEvent>, w: World, client: ClientId, sequence: Sequence)
    requires Shaped(config, w) && Fair(past, w)
    ensures Fair(past, Login(config, w, client, sequence))
  {
    if client !in w.playerByClient && |w.playerByClient| < config.maxPlayers {
      NewIdIsFree(config, w);
      LoginFacts(config, w, client, sequence);
      hide Shaped, Fair, Spawn, NewPlayer, Login;
      var at := Spawn(config, client);
      CreationIsFair(past, w, Login(config, w, client, sequence), NewPlayer(config, client), PlayerSpawned(w.nextId, client, at.0, at.1));
    }
  }

  lemma DoIsFair(config: Config, order: Order, past: seq<DomainEvent>, w: World, op: Op)
    requires Shaped(config, w) && Fair(past, w) && (op.DoFly? ==> op.id !in w.doomed)
    ensures Fair(past, Do(config, order, w, op))
  {
    hide Shaped, Fair;
    match op {
      case DoInput(input) => InputIsFair(config, past, w, input);
      case DoClearPending => QuietIsFair(past, w, w.(pending := []));
      case DoIntegrate(id) => IntegrateIsFair(config, past, w, id);
      case DoClearIntents => QuietIsFair(past, w, ClearIntents(w));
      case DoWarm(id) => WarmIsFair(config, past, w, id);
      case DoLaunch => LaunchIsFair(config, past, w);
      case DoFly(id) => FlyIsFair(config, order, past, w, id);
      case DoDestroy => DestroyIsFair(past, w);
      case DoRespawn(id) => RespawnIsFair(config, past, w, id);
    }
  }

  // --- passes ---

  ghost predicate LeavesDoomed(op: Op) {
    !op.DoFly? && !op.DoDestroy?
  }

  lemma DoKeepsDoomed(config: Config, order: Order, w: World, op: Op)
    requires LeavesDoomed(op)
    ensures Do(config, order, w, op).doomed == w.doomed
  {
  }

  lemma {:induction false} ExecKeepsDoomed(config: Config, order: Order, w: World, ops: seq<Op>, n: nat)
    requires n <= |ops| && (forall k :: 0 <= k < |ops| ==> LeavesDoomed(ops[k]))
    ensures Exec(config, order, w, ops, n).doomed == w.doomed
  {
    hide *;
    ExecUnfold(config, order, w, ops, n);
    if n > 0 {
      ExecKeepsDoomed(config, order, w, ops, n - 1);
      DoKeepsDoomed(config, order, Exec(config, order, w, ops, n - 1), ops[n - 1]);
    }
  }

  lemma {:induction false} ExecIsFair(config: Config, order: Order, past: seq<DomainEvent>, w: World, ops: seq<Op>, n: nat)
    requires Shaped(config, w) && Fair(past, w) && n <= |ops| && (forall k :: 0 <= k < |ops| ==> !ops[k].DoFly?)
    ensures Fair(past, Exec(config, order, w, ops, n))
  {
    hide *;
    ExecUnfold(config, order, w, ops, n);
    if n > 0 {
      ExecIsFair(config, order, past, w, ops, n - 1);
      ExecKeepsShape(config, order, w, ops, n - 1);
      DoIsFair(config, order, past, Exec(config, order, w, ops, n - 1), ops[n - 1]);
    }
  }

  lemma FlyDoomsItself(config: Config, order: Order, w: World, id: EntityId)
    ensures forall q :: q in Fly(config, order, w, id).doomed ==> q in w.doomed || q == id
  {
    hide FirstHit, Drifted, OffMap, Hurt, HurtEvents;
  }

  /** Each projectile is flown once, so none that has hit is flown again. */
  lemma {:induction false} FlightsAreFair(config: Config, order: Order, past: seq<DomainEvent>, w: World, walk: seq<EntityId>, ops: seq<Op>, n: nat)
    requires Shaped(config, w) && Fair(past, w) && w.doomed == [] && n <= |walk| == |ops| && Distinct(walk)
    requires forall k :: 0 <= k < |ops| ==> ops[k] == DoFly(walk[k])
    ensures Fair(past, Exec(config, order, w, ops, n))
    ensures forall q :: q in Exec(config, order, w, ops, n).doomed ==> q in walk[..n]
  {
    hide *;
    ExecUnfold(config, order, w, ops, n);
    if n > 0 {
      FlightsAreFair(config, order, past, w, walk, ops, n - 1);
      ExecKeepsShape(config, order, w, ops, n - 1);
      var before := Exec(config, order, w, ops, n - 1);
      NotInPrefix(walk, n - 1);
      DoIsFair(config, order, past, before, ops[n - 1]);
      FlyDoomsItself(config, order, before, walk[n - 1]);
      DoFlyIs(config, order, before, walk[n - 1]);
      assert walk[..n] == walk[..n - 1] + [walk[n - 1]];
    }
  }

  lemma DoFlyIs(config: Config, order: Order, w: World, id: EntityId)
    ensures Do(config, order, w, DoFly(id)) == Fly(config, order, w, id)
  {
  }

  lemma NotInPrefix(walk: seq<EntityId>, n: nat)
    requires Distinct(walk) && n < |walk|
    ensures walk[n] !in walk[..n]
  {
  }

  lemma InputsAreFair(config: Config, order: Order, past: seq<DomainEvent>, w: World)
    requires Shaped(config, w) && Fair(past, w)
    ensures var next := ProcessInputs(config, order, w);
            Shaped(config, next) && Fair(past, next) && next.doomed == w.doomed
  {
    hide Shaped, Fair, Pass;
    PassIsFair(config, order, past, w, InputOps(w));
    var applied := Pass(config, order, w, InputOps(w));
    PassIsFair(config, order, past, applied, MoveOps(order, applied));
  }

  lemma WarmupsAreFair(config: Config, order: Order, past: seq<DomainEvent>, w: World)
    requires Shaped(config, w) && Fair(past, w)
    ensures var next := ProcessWeaponWarmups(config, order, w);
            Shaped(config, next) && Fair(past, next) && next.doomed == w.doomed
  {
    hide Shaped, Fair, Pass;
    PassIsFair(config, order, past, w, WarmOps(order, w));
    var warmed := Pass(config, order, w, WarmOps(order, w));
    PassIsFair(config, order, past, warmed, LaunchOps(warmed));
  }

  lemma AdvanceIsFair(config: Config, past: seq<DomainEvent>, w: World)
    requires Shaped(config, w) && Fair(past, w)
    ensures Shaped(config, Advance(config, w)) && Fair(past, Advance(config, w))
  {
    ListsKeepShape(config, w, Advance(config, w));
    hide Shaped, Fair;
    QuietIsFair(past, w, Advance(config, w));
  }

  lemma AdvanceKeepsDoomed(config: Config, w: World)
    ensures Advance(config, w).doomed == w.doomed
  {
  }

  /** A tick that starts with nothing marked for destruction keeps hits and ids fair. */
  lemma TickIsFair(config: Config, order: Order, past: seq<DomainEvent>, w: World)
    requires Shaped(config, w) && Fair(past, w) && w.doomed == [] && ValidOrder(order)
    ensures Fair(past, TickFixed(config, order, w))
  {
    hide *;
    AdvanceIsFair(config, past, w);
    AdvanceKeepsDoomed(config, w);
    InputsAreFair(config, order, past, Advance(config, w));
    var moved := ProcessInputs(config, order, Advance(config, w));
    WarmupsAreFair(config, order, past, moved);
    var fired := ProcessWeaponWarmups(config, order, moved);
    ProjectilePassIsFair(config, order, past, fired);
    var flown := ProcessProjectiles(config, order, fired);
    RespawnsAreFair(config, order, past, flown);
    TickUnfold(config, order, w);
  }

  lemma RespawnsAreFair(config: Config, order: Order, past: seq<DomainEvent>, w: World)
    requires Shaped(config, w) && Fair(past, w)
    ensures Fair(past, ProcessRespawns(config, order, w))
  {
    hide Shaped, Fair, Pass;
    SettlingPassIsFair(config, order, past, w, RespawnOps(order, w));
  }

  lemma PassIsFair(config: Config, order: Order, past: seq<DomainEvent>, w: World, ops: seq<Op>)
    requires Shaped(config, w) && Fair(past, w) && (forall k :: 0 <= k < |ops| ==> LeavesDoomed(ops[k]))
    ensures var next := Pass(config, order, w, ops);
            Shaped(config, next) && Fair(past, next) && next.doomed == w.doomed
  {
    hide Shaped, Fair, Exec;
    ExecIsFair(config, order, past, w, ops, |ops|);
    ExecKeepsShape(config, order, w, ops, |ops|);
    ExecKeepsDoomed(config, order, w, ops, |ops|);
  }

  lemma SettlingPassIsFair(config: Config, order: Order, past: seq<DomainEvent>, w: World, ops: seq<Op>)
    requires Shaped(config, w) && Fair(past, w) && (forall k :: 0 <= k < |ops| ==> !ops[k].DoFly?)
    ensures var next := Pass(config, order, w, ops);
            Shaped(config, next) && Fair(past, next)
  {
    hide Shaped, Fair, Exec;
    ExecIsFair(config, order, past, w, ops, |ops|);
    ExecKeepsShape(config, order, w, ops, |ops|);
  }

  lemma ProjectilePassIsFair(config: Config, order: Order, past: seq<DomainEvent>, w: World)
    requires Shaped(config, w) && Fair(past, w) && w.doomed == [] && ValidOrder(order)
    ensures var next := ProcessProjectiles(config, order, w);
            Shaped(config, next) && Fair(past, next)
  {
    var walk := order(w.tick, 2, Projectiles(w));
    assert Enumerates(walk, Projectiles(w));
    hide Shaped, Fair, Exec;
    var ops := FlyOps(order, w);
    FlightsAreFair(config, order, past, w, walk, ops, |ops|);
    ExecKeepsShape(config, order, w, ops, |ops|);
    var flown := Pass(config, order, w, ops);
    SettlingPassIsFair(config, order, past, flown, DestroyOps(flown));
  }
}
