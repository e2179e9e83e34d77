/** How many projectiles a player can have in the air: shots are at least a warm-up and a
    tick apart, and no projectile outlives its lifetime. */
module Arrows {
  import opened Basics
  import opened Replication
  import opened Events
  import opened Motion
  import opened Simulation
  import opened Structure
  import opened TickEnd

  function Lifetime(config: Config): Time {
    match FindWeapon(config.weapons, config.defaultWeapon)
    case None => 0
    case Some(definition) => definition.lifetime
  }

  /** The least time between two shots of one player. */
  function Gap(config: Config): Time {
    match FindWeapon(config.weapons, config.defaultWeapon)
    case None => config.rules.tickMs
    case Some(definition) => definition.warmup + config.rules.tickMs
  }

  function ArrowsOf(w: World, owner: EntityId): set<EntityId> {
    set id | id in w.entities && w.entities[id].projectile.Some? && w.entities[id].projectile.value.owner == owner
  }

  function SpawnedAt(w: World, id: EntityId): Time
    requires id in Projectiles(w)
  {
    w.entities[id].projectile.value.spawnedAt
  }

  function OwnerOf(w: World, id: EntityId): EntityId
    requires id in Projectiles(w)
  {
    w.entities[id].projectile.value.owner
  }

  ghost predicate ArrowTimes(config: Config, w: World) {
    forall id :: id in Projectiles(w) ==>
      SpawnedAt(w, id) <= w.time && w.entities[id].projectile.value.expiresAt == SpawnedAt(w, id) + Lifetime(config)
  }

  ghost predicate Spaced(config: Config, w: World) {
    forall p, q :: p in Projectiles(w) && q in Projectiles(w) && p != q && OwnerOf(w, p) == OwnerOf(w, q) ==>
      Abs(SpawnedAt(w, p) - SpawnedAt(w, q)) >= Gap(config)
  }

  /** Every shot of this player was fired a gap or more before `time`. */
  ghost predicate LongAgo(config: Config, w: World, owner: EntityId, time: Time) {
    forall id :: id in Projectiles(w) && OwnerOf(w, id) == owner ==> SpawnedAt(w, id) + Gap(config) <= time
  }

  /** Whoever warms up now fires a gap or more after all earlier shots. */
  ghost predicate WarmingIsLate(config: Config, w: World) {
    forall id :: id in w.entities && w.entities[id].Warming() ==> LongAgo(config, w, id, w.entities[id].weapon.value.completesAt)
  }

  ghost predicate RequestsAreLate(config: Config, w: World) {
    && (forall k :: 0 <= k < |w.requests| ==>
          LongAgo(config, w, w.requests[k].owner, w.time)
          && w.requests[k].owner in w.entities && !w.entities[w.requests[k].owner].Warming())
    && (forall j, k :: 0 <= j < k < |w.requests| ==> w.requests[j].owner != w.requests[k].owner)
  }

  ghost predicate Paced(config: Config, w: World) {
    && ArrowTimes(config, w)
    && Spaced(config, w)
    && WarmingIsLate(config, w)
    && RequestsAreLate(config, w)
  }

  /** Every projectile in the air was fired in an earlier tick. */
  ghost predicate Rested(config: Config, w: World) {
    forall id :: id in Projectiles(w) ==> SpawnedAt(w, id) + config.rules.tickMs <= w.time
  }

  // --- steps that fire nothing ---

  /** Projectiles may go but not come or change; weapons may only stop warming. */
  ghost predicate Calmer(w: World, next: World) {
    && next.time >= w.time
    && (forall id :: id in Projectiles(next) ==>
          id in Projectiles(w) && next.entities[id].projectile == w.entities[id].projectile)
    && (forall id :: id in next.entities && next.entities[id].Warming() ==>
          id in w.entities && w.entities[id].Warming()
          && next.entities[id].weapon.value.completesAt == w.entities[id].weapon.value.completesAt)
  }

  ghost predicate SameRequests(w: World, next: World) {
    && next.requests == w.requests
    && (forall k :: 0 <= k < |w.requests| ==> w.requests[k].owner in next.entities)
  }

  lemma CalmerKeepsLongAgo(config: Config, w: World, next: World, owner: EntityId, time: Time, later: Time)
    requires Calmer(w, next) && LongAgo(config, w, owner, time) && time <= later
    ensures LongAgo(config, next, owner, later)
  {
  }

  lemma CalmerStep(config: Config, w: World, next: World)
    requires Paced(config, w) && Calmer(w, next) && SameRequests(w, next)
    ensures Paced(config, next)
  {
    forall id | id in next.entities && next.entities[id].Warming()
      ensures LongAgo(config, next, id, next.entities[id].weapon.value.completesAt)
    {
      var at := w.entities[id].weapon.value.completesAt;
      CalmerKeepsLongAgo(config, w, next, id, at, at);
    }
    forall k | 0 <= k < |next.requests|
      ensures LongAgo(config, next, next.requests[k].owner, next.time)
    {
      CalmerKeepsLongAgo(config, w, next, w.requests[k].owner, w.time, next.time);
    }
    hide LongAgo;
  }

  lemma CalmChange(config: Config, w: World, id: EntityId, e: Entity, news: seq<DomainEvent>)
    requires Paced(config, w) && id in w.entities && e.projectile == w.entities[id].projectile
    requires e.Warming() ==> w.entities[id].Warming() && e.weapon.value.completesAt == w.entities[id].weapon.value.completesAt
    ensures Paced(config, w.Change(id, e, news))
  {
    var next := w.Change(id, e, news);
    assert RequestsAreLate(config, w);
    assert SameRequests(w, next);
    hide Paced, RequestsAreLate;
    CalmerStep(config, w, next);
  }

  // --- starting a warm-up ---

  lemma WarmupChange(config: Config, w: World, id: EntityId, e: Entity, news: seq<DomainEvent>)
    requires Paced(config, w) && Rested(config, w) && w.requests == []
    requires id in w.entities && e.projectile == w.entities[id].projectile
    requires e.weapon.Some? && e.weapon.value.completesAt + config.rules.tickMs == w.time + Gap(config)
    ensures Paced(config, w.Change(id, e, news)) && Rested(config, w.Change(id, e, news))
  {
    var next := w.Change(id, e, news);
    assert Projectiles(next) == Projectiles(w);
    forall q | q in next.entities && next.entities[q].Warming()
      ensures LongAgo(config, next, q, next.entities[q].weapon.value.completesAt)
    {
      if q != id {
        assert LongAgo(config, w, q, w.entities[q].weapon.value.completesAt);
      }
    }
    hide Gap, Lifetime;
  }

  lemma InputIsPaced(config: Config, w: World, input: Input)
    requires Shaped(config, w) && Paced(config, w) && Rested(config, w) && w.requests == []
    ensures Paced(config, ApplyInput(config, w, input)) && Rested(config, ApplyInput(config, w, input))
    ensures ApplyInput(config, w, input).requests == []
  {
    if input.client in w.playerByClient {
      var id := w.playerByClient[input.client];
      assert IsPlayer(w, id);
      EntityOkUnfold(config, w, id);
      var e := w.entities[id];
      var next := Responding(config, w.time, e, input.frame);
      var news := WarmupEvents(config, w.time, id, e, input.frame);
      hide Shaped, Paced, Rested, WarmupEvents, EntityOk;
      if !e.Defeated() {
        if WarmupStart(config, e, input.frame).Some? {
          WarmupChange(config, w, id, next, news);
        } else {
          CalmChange(config, w, id, next, news);
          RestedChange(config, w, id, next, news);
        }
      }
    }
  }

  lemma RestedChange(config: Config, w: World, id: EntityId, e: Entity, news: seq<DomainEvent>)
    requires Rested(config, w) && id in w.entities && e.projectile == w.entities[id].projectile
    ensures Rested(config, w.Change(id, e, news))
  {
    assert Projectiles(w.Change(id, e, news)) == Projectiles(w);
  }

  // --- firing ---

  lemma IntegrateIsPaced(config: Config, w: World, id: EntityId)
    requires Paced(config, w)
    ensures Paced(config, Integrate(config, w, id))
  {
    hide Paced;
    if id in w.entities {
      var next := Stepped(config.rules, w.entities[id]);
      assert next.weapon == w.entities[id].weapon && next.projectile == w.entities[id].projectile;
      hide Stepped, MoveEvents;
      CalmChange(config, w, id, next, MoveEvents(id, w.entities[id], next.body));
    }
  }

  lemma CooledIsCalm(e: Entity, time: Time)
    ensures Cooled(e, time).projectile == e.projectile
    ensures Cooled(e, time).Warming() ==> e.Warming() && Cooled(e, time).weapon == e.weapon
  {
  }

  lemma FiringStops(config: Config, id: EntityId, e: Entity, time: Time)
    ensures var rs := FireRequests(config, id, e, time);
            rs == [] || (|rs| == 1 && rs[0].owner == id && e.Warming() && e.weapon.value.completesAt <= time
                         && !Cooled(e, time).Warming())
  {
  }

  lemma WarmIsPaced(config: Config, w: World, id: EntityId)
    requires Paced(config, w)
    ensures Paced(config, Warm(config, w, id))
  {
    hide Paced;
    if id in w.entities && w.entities[id].weapon.Some? && w.entities[id].aim.Some? {
      var e := w.entities[id];
      CooledIsCalm(e, w.time);
      FiringStops(config, id, e, w.time);
      hide Cooled, FireEvents, FireRequests;
      var cooled := w.Change(id, Cooled(e, w.time), FireEvents(config, id, e, w.time));
      CalmChange(config, w, id, Cooled(e, w.time), FireEvents(config, id, e, w.time));
      var rs := FireRequests(config, id, e, w.time);
      if rs == [] {
        assert Warm(config, w, id) == cooled;
      } else {
        AskingIsPaced(config, w, cooled, id, rs[0]);
        assert rs == [rs[0]];
        assert Warm(config, w, id) == cooled.(requests := cooled.requests + [rs[0]]);
      }
    }
  }

  /** A player whose warm-up has just completed asks for a shot. */
  lemma AskingIsPaced(config: Config, w: World, cooled: World, id: EntityId, r: Request)
    requires Paced(config, w) && Paced(config, cooled)
    requires id in w.entities && w.entities[id].Warming() && w.entities[id].weapon.value.completesAt <= w.time
    requires cooled.time == w.time && cooled.requests == w.requests && Calmer(w, cooled)
    requires id in cooled.entities && !cooled.entities[id].Warming() && r.owner == id
    ensures Paced(config, cooled.(requests := cooled.requests + [r]))
  {
    var next := cooled.(requests := cooled.requests + [r]);
    assert LongAgo(config, w, id, w.entities[id].weapon.value.completesAt);
    CalmerKeepsLongAgo(config, w, cooled, id, w.entities[id].weapon.value.completesAt, w.time);
    assert forall k :: 0 <= k < |w.requests| ==> w.requests[k].owner != id;
    TimesOnly(config, cooled, next);
    hide LongAgo, Calmer;
    assert forall owner, time :: LongAgo(config, next, owner, time) <==> LongAgo(config, cooled, owner, time);
  }

  lemma TimesOnly(config: Config, w: World, next: World)
    requires next.entities == w.entities && next.time == w.time
    ensures ArrowTimes(config, next) == ArrowTimes(config, w)
    ensures Spaced(config, next) == Spaced(config, w)
    ensures WarmingIsLate(config, next) == WarmingIsLate(config, w)
    ensures forall owner, time :: LongAgo(config, next, owner, time) <==> LongAgo(config, w, owner, time)
  {
    assert Projectiles(next) == Projectiles(w);
    assert forall owner, time :: LongAgo(config, next, owner, time) <==> LongAgo(config, w, owner, time);
    hide LongAgo;
  }

  lemma LaunchIsPaced(config: Config, w: World)
    requires Shaped(config, w) && Paced(config, w)
    ensures Paced(config, Launch(w))
  {
    if w.requests != [] {
      NewIdIsFree(config, w);
      var r := w.requests[0];
      assert RequestOk(config, r);
      assert Lifetime(config) == r.weapon.lifetime;
      assert LongAgo(config, w, r.owner, w.time);
      hide Shaped;
      LaunchedTimes(config, w);
      LaunchedWarming(config, w);
      LaunchedRequests(config, w);
    }
  }

  lemma LaunchedTimes(config: Config, w: World)
    requires ArrowTimes(config, w) && Spaced(config, w) && w.nextId !in w.entities && w.requests != []
    requires w.requests[0].weapon.lifetime == Lifetime(config)
    requires LongAgo(config, w, w.requests[0].owner, w.time)
    ensures ArrowTimes(config, Launch(w)) && Spaced(config, Launch(w))
  {
    var next := Launch(w);
    assert Projectiles(next) == Projectiles(w) + {w.nextId};
    assert SpawnedAt(next, w.nextId) == w.time && OwnerOf(next, w.nextId) == w.requests[0].owner;
    assert forall id :: id in Projectiles(w) ==> next.entities[id] == w.entities[id];
    hide Launch, Gap, Lifetime;
  }

  lemma LaunchedLongAgo(config: Config, w: World, owner: EntityId, time: Time)
    requires w.requests != [] && w.nextId !in w.entities && owner != w.requests[0].owner && LongAgo(config, w, owner, time)
    ensures LongAgo(config, Launch(w), owner, time)
  {
    hide Gap;
    var next := Launch(w);
    forall id | id in Projectiles(next) && OwnerOf(next, id) == owner
      ensures SpawnedAt(next, id) + Gap(config) <= time
    {
      assert id != w.nextId;
      assert id in Projectiles(w) && OwnerOf(w, id) == owner;
    }
  }

  lemma LaunchedWarming(config: Config, w: World)
    requires WarmingIsLate(config, w) && RequestsAreLate(config, w) && w.nextId !in w.entities && w.requests != []
    ensures WarmingIsLate(config, Launch(w))
  {
    var next := Launch(w);
    assert !next.entities[w.nextId].Warming();
    hide Arrow, LongAgo;
    forall id | id in next.entities && next.entities[id].Warming()
      ensures LongAgo(config, next, id, next.entities[id].weapon.value.completesAt)
    {
      LaunchedLongAgo(config, w, id, w.entities[id].weapon.value.completesAt);
    }
  }

  lemma LaunchedRequests(config: Config, w: World)
    requires RequestsAreLate(config, w) && w.nextId !in w.entities && w.requests != []
    ensures RequestsAreLate(config, Launch(w))
  {
    var next := Launch(w);
    hide Arrow, LongAgo;
    forall k | 0 <= k < |next.requests|
      ensures LongAgo(config, next, next.requests[k].owner, next.time)
    {
      assert next.requests[k] == w.requests[k + 1];
      LaunchedLongAgo(config, w, w.requests[k + 1].owner, w.time);
    }
  }

  lemma StrikeIsPaced(config: Config, w: World, projectile: EntityId, source: Projectile, target: EntityId)
    requires Paced(config, w) && target in w.entities
    ensures Paced(config, Strike(config, w, projectile, source, target))
  {
    hide Paced;
    var e := w.entities[target];
    var news := HurtEvents(config, w.time, projectile, source, target, e);
    assert Hurt(config, w.time, source, e).weapon == e.weapon && Hurt(config, w.time, source, e).projectile == e.projectile;
    hide Hurt, HurtEvents;
    CalmChange(config, w, target, Hurt(config, w.time, source, e), news);
    ListsArePaced(config, w.Change(target, Hurt(config, w.time, source, e), news), Strike(config, w, projectile, source, target));
  }

  lemma ListsArePaced(config: Config, w: World, next: World)
    requires Paced(config, w) && next.entities == w.entities && next.time == w.time && next.requests == w.requests
    ensures Paced(config, next)
  {
    TimesOnly(config, w, next);
    hide LongAgo, ArrowTimes, Spaced, WarmingIsLate;
  }

  lemma FlyIsPaced(config: Config, order: Order, w: World, id: EntityId)
    requires Paced(config, w)
    ensures Paced(config, Fly(config, order, w, id))
  {
    hide Paced;
    if id in w.entities && w.entities[id].projectile.Some? {
      var e := w.entities[id];
      var body := Drifted(config.rules.tickMs, e.body);
      var flown := w.Change(id, e.(body := body), []);
      hide CloseEnough, Drifted, Strike, FirstHit;
      CalmChange(config, w, id, e.(body := body), []);
      ListsArePaced(config, flown, flown.(doomed := flown.doomed + [id]));
      var hit := FirstHit(flown, e.projectile.value.owner, body, order(w.tick, 4 + id, Players(flown)));
      if hit.Some? {
        StrikeIsPaced(config, flown, id, e.projectile.value, hit.value);
      }
    }
  }

  lemma RemovalIsCalm(w: World, gone: EntityId, next: World)
    requires next.entities == w.entities - {gone} && next.time == w.time && next.requests == w.requests
    requires forall k :: 0 <= k < |w.requests| ==> w.requests[k].owner in w.entities && w.requests[k].owner != gone
    ensures Calmer(w, next) && SameRequests(w, next)
  {
  }

  lemma DestroyIsPaced(config: Config, w: World)
    requires Shaped(config, w) && Paced(config, w)
    ensures Paced(config, Destroy(w))
  {
    if w.doomed != [] {
      assert !IsPlayer(w, w.doomed[0]);
      assert forall k :: 0 <= k < |w.requests| ==> IsPlayer(w, w.requests[k].owner);
      hide Shaped, Paced, Calmer, SameRequests;
      RemovalIsCalm(w, w.doomed[0], Destroy(w));
      CalmerStep(config, w, Destroy(w));
    }
  }

  lemma RespawnIsPaced(config: Config, w: World, id: EntityId)
    requires Paced(config, w)
    ensures Paced(config, Respawn(config, w, id))
  {
    hide Paced;
    if id in w.entities && w.entities[id].Defeated() && w.time >= w.entities[id].player.value.respawnAt {
      var e := Revived(config, w.entities[id]);
      assert !e.Warming() && e.projectile == w.entities[id].projectile;
      hide Revived;
      CalmChange(config, w, id, e, [PlayerRespawned(id, e.body.x, e.body.y)]);
    }
  }

  lemma ClearIntentsIsPaced(config: Config, w: World)
    requires Paced(config, w)
    ensures Paced(config, ClearIntents(w))
  {
    assert Calmer(w, ClearIntents(w));
    assert SameRequests(w, ClearIntents(w));
    hide Calmer, LongAgo, ArrowTimes, Spaced, WarmingIsLate;
    CalmerStep(config, w, ClearIntents(w));
  }

  lemma DoIsPaced(config: Config, order: Order, w: World, op: Op)
    requires Shaped(config, w) && Paced(config, w) && !op.DoInput?
    ensures Paced(config, Do(config, order, w, op))
  {
    hide Shaped, Paced;
    match op {
      case DoClearPending => ListsArePaced(config, w, w.(pending := []));
      case DoIntegrate(id) => IntegrateIsPaced(config, w, id);
      case DoClearIntents => ClearIntentsIsPaced(config, w);
      case DoWarm(id) => WarmIsPaced(config, w, id);
      case DoLaunch => LaunchIsPaced(config, w);
      case DoFly(id) => FlyIsPaced(config, order, w, id);
      case DoDestroy => DestroyIsPaced(config, w);
      case DoRespawn(id) => RespawnIsPaced(config, w, id);
    }
  }

  // --- passes ---

  lemma {:induction false} ExecIsPaced(config: Config, order: Order, w: World, ops: seq<Op>, n: nat)
    requires Shaped(config, w) && Paced(config, w) && n <= |ops| && (forall k :: 0 <= k < |ops| ==> !ops[k].DoInput?)
    ensures Paced(config, Exec(config, order, w, ops, n))
  {
    hide *;
    ExecUnfold(config, order, w, ops, n);
    if n > 0 {
      ExecIsPaced(config, order, w, ops, n - 1);
      ExecKeepsShape(config, order, w, ops, n - 1);
      DoIsPaced(config, order, Exec(config, order, w, ops, n - 1), ops[n - 1]);
    }
  }

  lemma DoInputIsPaced(config: Config, order: Order, w: World, op: Op)
    requires Shaped(config, w) && Paced(config, w) && Rested(config, w) && w.requests == []
    requires op.DoInput? || op.DoClearPending?
    ensures var next := Do(config, order, w, op);
            Paced(config, next) && Rested(config, next) && next.requests == []
  {
    hide Shaped, Paced;
    if op.DoInput? {
      InputIsPaced(config, w, op.input);
    } else {
      var next := w.(pending := []);
      ListsArePaced(config, w, next);
      assert Projectiles(next) == Projectiles(w);
    }
  }

  lemma {:induction false} InputsArePaced(config: Config, order: Order, w: World, ops: seq<Op>, n: nat)
    requires Shaped(config, w) && Paced(config, w) && Rested(config, w) && w.requests == [] && n <= |ops|
    requires forall k :: 0 <= k < |ops| ==> ops[k].DoInput? || ops[k].DoClearPending?
    ensures var next := Exec(config, order, w, ops, n);
            Paced(config, next) && Rested(config, next) && next.requests == []
  {
    hide *;
    ExecUnfold(config, order, w, ops, n);
    if n > 0 {
      InputsArePaced(config, order, w, ops, n - 1);
      ExecKeepsShape(config, order, w, ops, n - 1);
      DoInputIsPaced(config, order, Exec(config, order, w, ops, n - 1), ops[n - 1]);
    }
  }

  /** A new tick starts a full tick after every shot so far. */
  lemma AdvanceRests(config: Config, w: World)
    requires Shaped(config, w) && Paced(config, w) && w.requests == []
    ensures var next := Advance(config, w);
            Shaped(config, next) && Paced(config, next) && Rested(config, next) && next.requests == []
  {
    var next := Advance(config, w);
    AdvanceKeepsShape(config, w);
    assert Calmer(w, next) && SameRequests(w, next);
    assert ArrowTimes(config, w);
    assert Projectiles(next) == Projectiles(w);
    hide Shaped, Paced, Calmer, SameRequests;
    CalmerStep(config, w, next);
  }

  lemma PassIsPaced(config: Config, order: Order, w: World, ops: seq<Op>)
    requires Shaped(config, w) && Paced(config, w) && (forall k :: 0 <= k < |ops| ==> !ops[k].DoInput?)
    ensures Shaped(config, Pass(config, order, w, ops)) && Paced(config, Pass(config, order, w, ops))
  {
    hide Shaped, Paced, Exec;
    ExecIsPaced(config, order, w, ops, |ops|);
    ExecKeepsShape(config, order, w, ops, |ops|);
  }

  lemma MovesArePaced(config: Config, order: Order, w: World)
    requires Shaped(config, w) && Paced(config, w) && Rested(config, w) && w.requests == []
    ensures Shaped(config, ProcessInputs(config, order, w)) && Paced(config, ProcessInputs(config, order, w))
  {
    hide Shaped, Paced, Rested, Exec;
    var ops := InputOps(w);
    InputsArePaced(config, order, w, ops, |ops|);
    ExecKeepsShape(config, order, w, ops, |ops|);
    var applied := Pass(config, order, w, ops);
    PassIsPaced(config, order, applied, MoveOps(order, applied));
  }

  lemma WarmupsArePaced(config: Config, order: Order, w: World)
    requires Shaped(config, w) && Paced(config, w)
    ensures Shaped(config, ProcessWeaponWarmups(config, order, w)) && Paced(config, ProcessWeaponWarmups(config, order, w))
  {
    hide Shaped, Paced, Pass;
    PassIsPaced(config, order, w, WarmOps(order, w));
    var warmed := Pass(config, order, w, WarmOps(order, w));
    PassIsPaced(config, order, warmed, LaunchOps(warmed));
  }

  lemma ProjectilesArePaced(config: Config, order: Order, w: World)
    requires Shaped(config, w) && Paced(config, w)
    ensures Shaped(config, ProcessProjectiles(config, order, w)) && Paced(config, ProcessProjectiles(config, order, w))
  {
    hide Shaped, Paced, Pass;
    PassIsPaced(config, order, w, FlyOps(order, w));
    var flown := Pass(config, order, w, FlyOps(order, w));
    PassIsPaced(config, order, flown, DestroyOps(flown));
  }

  lemma RespawnsArePaced(config: Config, order: Order, w: World)
    requires Shaped(config, w) && Paced(config, w)
    ensures Paced(config, ProcessRespawns(config, order, w))
  {
    hide Shaped, Paced, Pass;
    PassIsPaced(config, order, w, RespawnOps(order, w));
  }

  lemma TickIsPaced(config: Config, order: Order, w: World)
    requires Shaped(config, w) && Paced(config, w) && w.requests == []
    ensures Paced(config, TickFixed(config, order, w))
  {
    hide *;
    AdvanceRests(config, w);
    MovesArePaced(config, order, Advance(config, w));
    var moved := ProcessInputs(config, order, Advance(config, w));
    WarmupsArePaced(config, order, moved);
    var fired := ProcessWeaponWarmups(config, order, moved);
    ProjectilesArePaced(config, order, fired);
    RespawnsArePaced(config, order, ProcessProjectiles(config, order, fired));
    TickUnfold(config, order, w);
  }

  lemma LoginIsPaced(config: Config, w: World, client: ClientId, sequence: Sequence)
    requires Shaped(config, w) && Paced(config, w) && w.requests == []
    ensures Paced(config, Login(config, w, client, sequence)) && Login(config, w, client, sequence).requests == []
  {
    var next := Login(config, w, client, sequence);
    if client !in w.playerByClient && |w.playerByClient| < config.maxPlayers {
      var e := NewPlayer(config, client);
      assert e.projectile.None? && !e.Warming();
      assert next.entities == w.entities[w.nextId := e];
      NewIdIsFree(config, w);
      hide Shaped, Paced, NewPlayer, Spawn, Login;
      assert Calmer(w, next);
      CalmerStep(config, w, next);
    }
  }

  // --- counting ---

  function Bound(config: Config): nat
    requires config.rules.tickMs > 0
  {
    if Lifetime(config) == 0 then 0 else (Lifetime(config) - 1) / Gap(config) + 1
  }

  /** With the default bow and tick: seven. */
  lemma DefaultBound(config: Config)
    requires FindWeapon(config.weapons, config.defaultWeapon) == Some(WeaponDefinition(Bow, 300, 900 * FIXED_ONE, 2000, 35, true))
    requires config.rules.tickMs == 16
    ensures Bound(config) == 7
  {
  }

  lemma {:induction false} InjectiveImageSize<T, U>(s: set<T>, f: T --> U, image: set<U>)
    requires forall x :: x in s ==> f.requires(x) && f(x) in image
    requires forall x, y :: x in s && y in s && x != y ==> f(x) != f(y)
    ensures |s| <= |image|
    decreases |s|
  {
    if s != {} {
      var x :| x in s;
      InjectiveImageSize(s - {x}, f, image - {f(x)});
    }
  }

  lemma InjectiveBelow<T>(s: set<T>, f: T --> int, n: nat)
    requires forall x :: x in s ==> f.requires(x) && 0 <= f(x) < n
    requires forall x, y :: x in s && y in s && x != y ==> f(x) != f(y)
    ensures |s| <= n
  {
    var image := set x | x in s :: f(x);
    InjectiveImageSize(s, f, image);
    BoundedSetSize(image, 0, n);
  }

  lemma QuotientBound(a: nat, b: nat, gap: nat)
    requires gap > 0 && a <= b
    ensures a / gap <= b / gap
  {
    var p, q := a / gap, b / gap;
    assert a == p * gap + a % gap && b == q * gap + b % gap;
    if p >= q + 1 {
      MonotoneProduct(q + 1, p, gap);
    }
  }

  lemma QuotientStep(a: nat, gap: nat)
    requires gap > 0
    ensures (a + gap) / gap > a / gap
  {
    var p, q := (a + gap) / gap, a / gap;
    assert a + gap == p * gap + (a + gap) % gap && a == q * gap + a % gap;
    assert (q + 1) * gap == q * gap + gap;
    if p <= q {
      MonotoneProduct(p, q, gap);
    }
  }

  lemma QuotientsDiffer(a: nat, b: nat, gap: nat)
    requires gap > 0 && Abs(a - b) >= gap
    ensures a / gap != b / gap
  {
    QuotientStep(a, gap);
    QuotientStep(b, gap);
    if a < b {
      QuotientBound(a + gap, b, gap);
    } else {
      QuotientBound(b + gap, a, gap);
    }
  }

  /** How many gaps ago a projectile was fired. */
  function Age(config: Config, w: World, id: EntityId): int
    requires id in Projectiles(w) && Gap(config) > 0
  {
    (w.time - SpawnedAt(w, id)) / Gap(config)
  }

  lemma AgeIsBounded(config: Config, w: World, id: EntityId)
    requires config.rules.tickMs > 0 && ArrowTimes(config, w) && id in Projectiles(w) && Aloft(config, w, id)
    ensures 0 <= Age(config, w, id) < Bound(config)
  {
    assert w.time < SpawnedAt(w, id) + Lifetime(config) && SpawnedAt(w, id) <= w.time;
    QuotientBound(w.time - SpawnedAt(w, id), Lifetime(config) - 1, Gap(config));
    hide Lifetime;
  }

  lemma AgesDiffer(config: Config, w: World, p: EntityId, q: EntityId)
    requires config.rules.tickMs > 0 && ArrowTimes(config, w) && Spaced(config, w)
    requires p in Projectiles(w) && q in Projectiles(w) && p != q && OwnerOf(w, p) == OwnerOf(w, q)
    ensures Age(config, w, p) != Age(config, w, q)
  {
    assert SpawnedAt(w, p) <= w.time && SpawnedAt(w, q) <= w.time;
    QuotientsDiffer(w.time - SpawnedAt(w, p), w.time - SpawnedAt(w, q), Gap(config));
  }

  /** At the end of a tick a player has at most (lifetime - 1) / (warm-up + tick) + 1
      projectiles in the air. */
  lemma FewArrowsEach(config: Config, w: World, owner: EntityId)
    requires config.rules.tickMs > 0 && Paced(config, w) && (forall id :: Aloft(config, w, id))
    ensures |ArrowsOf(w, owner)| <= Bound(config)
  {
    var arrows := ArrowsOf(w, owner);
    assert forall id :: id in arrows ==> id in Projectiles(w) && OwnerOf(w, id) == owner;
    assert Gap(config) > 0;
    hide Gap, Bound, Aloft, ArrowTimes, Spaced, WarmingIsLate, RequestsAreLate;
    var age := (id: EntityId) requires id in arrows => Age(config, w, id);
    forall id | id in arrows
      ensures 0 <= age(id) < Bound(config)
    {
      AgeIsBounded(config, w, id);
    }
    forall p, q | p in arrows && q in arrows && p != q
      ensures age(p) != age(q)
    {
      AgesDiffer(config, w, p, q);
    }
    InjectiveBelow(arrows, age, Bound(config));
  }

  lemma PlayersAreFew(config: Config, w: World)
    requires Shaped(config, w)
    ensures |Players(w)| <= config.maxPlayers
  {
    forall id | id in Players(w)
      ensures PlayerShape(config, w, id, w.entities[id])
    {
      EntityOkUnfold(config, w, id);
    }
    var clientOf := (id: EntityId) requires id in Players(w) => w.entities[id].player.value.client;
    InjectiveImageSize(Players(w), clientOf, w.playerByClient.Keys);
    assert |w.playerByClient.Keys| == |w.playerByClient|;
  }

  /** The chosen players and everything they have in the air. */
  function Belonging(w: World, owners: set<EntityId>): set<EntityId> {
    set id | id in w.entities && (id in owners || (w.entities[id].projectile.Some? && w.entities[id].projectile.value.owner in owners))
  }

  lemma {:induction false} BelongingIsFew(config: Config, w: World, owners: set<EntityId>)
    requires config.rules.tickMs > 0 && Paced(config, w) && (forall id :: Aloft(config, w, id))
    ensures |Belonging(w, owners)| <= |owners| * (1 + Bound(config))
    decreases |owners|
  {
    if owners == {} {
      assert Belonging(w, owners) == {};
    } else {
      var o :| o in owners;
      BelongingIsFew(config, w, owners - {o});
      FewArrowsEach(config, w, o);
      hide Bound, Paced, Aloft;
      var rest := Belonging(w, owners - {o});
      assert Belonging(w, owners) <= rest + {o} + ArrowsOf(w, o);
      SubsetSize(Belonging(w, owners), rest + {o} + ArrowsOf(w, o));
      assert |owners - {o}| == |owners| - 1;
      Distributes(|owners|, 1 + Bound(config));
    }
  }

  lemma Distributes(n: nat, k: nat)
    requires n > 0
    ensures (n - 1) * k + k == n * k
  {
  }

  lemma {:induction false} SubsetSize<T>(a: set<T>, b: set<T>)
    requires a <= b
    ensures |a| <= |b|
  {
    assert b == a + (b - a);
  }

  /** The number of entities at the end of a tick has a bound fixed by the configuration. */
  lemma FewEntities(config: Config, w: World)
    requires config.rules.tickMs > 0 && Shaped(config, w) && Paced(config, w) && (forall id :: Aloft(config, w, id))
    ensures |w.entities| <= config.maxPlayers * (1 + Bound(config))
  {
    PlayersAreFew(config, w);
    BelongingIsFew(config, w, Players(w));
    forall id | id in w.entities
      ensures id in Belonging(w, Players(w))
    {
      EntityOkUnfold(config, w, id);
    }
    assert w.entities.Keys == Belonging(w, Players(w));
    hide Bound, Paced, Aloft, Shaped, Belonging;
    MonotoneProduct(|Players(w)|, config.maxPlayers, 1 + Bound(config));
    assert |w.entities| == |w.entities.Keys|;
  }
}
